/** The browser-side token store (`lib/helpers.ts`): three cookies ("token",
    "refresh_token", "currentSession") and one session-storage entry
    ("currentSession"). The clock is a parameter (`now`, in milliseconds), the
    page protocol and the configured session lifetime are constants of the
    store, and the session snapshot is carried as its JSON text. */
module TokenStore {
  import opened Wrappers
  import Base64

  const TokenKey := "token"
  const RefreshTokenKey := "refresh_token"
  const SessionKey := "currentSession"

  const MinuteMs := 60 * 1000
  /** The refresh-token lifetime: thirty days. */
  const RefreshLifetimeMs := 30 * 24 * 60 * 60 * 1000

  datatype SameSite = Lax

  /** A stored cookie: its value, its expiry instant (absent for a session cookie)
      and the attributes it was written with. */
  datatype Cookie = Cookie(value: string, expires: Option<int>, secure: bool, sameSite: Option<SameSite>)

  type Jar = map<string, Cookie>

  /** `Cookies.get(key)`: the value of a cookie that exists and has not expired. */
  function Get(jar: Jar, key: string, now: int): (r: Option<string>)
    ensures r.Some? <==> key in jar && (jar[key].expires.None? || now < jar[key].expires.value)
    ensures r.Some? ==> r.value == jar[key].value
  {
    if key in jar && (jar[key].expires.None? || now < jar[key].expires.value) then Some(jar[key].value)
    else None
  }

  /** Cookies are marked secure exactly on an https page. */
  predicate IsSecurePage(protocol: Option<string>) {
    protocol == Some("https:")
  }

  /** A cookie written with an expiry and SameSite=Lax. */
  function Timed(value: string, expires: int, protocol: Option<string>): Cookie {
    Cookie(value, Some(expires), IsSecurePage(protocol), Some(Lax))
  }

  // ---------------------------------------------------------------- state after each write

  /** The jar after `setToken`: the token reads back from `now` until `deltaMinutes`
      later and not from then on, it is written secure exactly on an https page
      with SameSite=Lax, and no other cookie changes. */
  function WithToken(jar: Jar, token: string, now: int, deltaMinutes: int, protocol: Option<string>): (r: Jar)
    ensures Get(r, TokenKey, now) == (if deltaMinutes > 0 then Some(token) else None)
    ensures forall later | now <= later < now + deltaMinutes * MinuteMs :: Get(r, TokenKey, later) == Some(token)
    ensures forall later | now + deltaMinutes * MinuteMs <= later :: Get(r, TokenKey, later) == None
    ensures TokenKey in r && (r[TokenKey].secure <==> IsSecurePage(protocol)) && r[TokenKey].sameSite == Some(Lax)
    ensures r - {TokenKey} == jar - {TokenKey}
  {
    jar[TokenKey := Timed(token, now + deltaMinutes * MinuteMs, protocol)]
  }

  /** The jar after `setRefreshToken`: the refresh token reads back for thirty
      days from `now` and not from then on, with the same attributes as the
      token, and no other cookie changes. */
  function WithRefreshToken(jar: Jar, refreshToken: string, now: int, protocol: Option<string>): (r: Jar)
    ensures forall later | now <= later < now + RefreshLifetimeMs :: Get(r, RefreshTokenKey, later) == Some(refreshToken)
    ensures forall later | now + RefreshLifetimeMs <= later :: Get(r, RefreshTokenKey, later) == None
    ensures RefreshTokenKey in r && (r[RefreshTokenKey].secure <==> IsSecurePage(protocol))
    ensures r[RefreshTokenKey].sameSite == Some(Lax)
    ensures r - {RefreshTokenKey} == jar - {RefreshTokenKey}
  {
    jar[RefreshTokenKey := Timed(refreshToken, now + RefreshLifetimeMs, protocol)]
  }

  /** The jar after `removeAllCookies`. */
  function Cleared(jar: Jar): (r: Jar)
    ensures TokenKey !in r && RefreshTokenKey !in r && SessionKey !in r
    ensures forall k | k in jar && k != TokenKey && k != RefreshTokenKey && k != SessionKey :: k in r && r[k] == jar[k]
    ensures r.Keys <= jar.Keys
  {
    jar - {TokenKey, RefreshTokenKey, SessionKey}
  }

  /** What `getCurrentSessionCookies` finds: nothing (no live cookie, or an empty
      one), the decoded JSON text, or a value `atob` cannot decode (it throws). */
  datatype SnapshotRead = NoSnapshot | Snapshot(json: string) | Malformed

  function ReadSnapshot(jar: Jar, now: int): (r: SnapshotRead)
    ensures Get(jar, SessionKey, now).None? ==> r == NoSnapshot
    ensures Get(jar, SessionKey, now) == Some("") ==> r == NoSnapshot
    ensures r.Snapshot? ==> Base64.Atob(Get(jar, SessionKey, now).value) == Some(r.json)
    ensures r.Malformed? <==> (match Get(jar, SessionKey, now)
                                case None => false
                                case Some(v) => v != "" && Base64.Atob(v).None?)
  {
    match Get(jar, SessionKey, now)
    case None => NoSnapshot
    case Some(v) =>
      if v == "" then NoSnapshot
      else match Base64.Atob(v)
        case None => Malformed
        case Some(json) => Snapshot(json)
  }

  /** Saving then reading before the session lifetime runs out gives back the
      saved JSON text; clearing leaves no snapshot and no tokens. */
  lemma SnapshotRoundTrip(jar: Jar, json: string, now: int, later: int, deltaMinutes: int, protocol: Option<string>)
    requires Base64.IsLatin1(json) && json != []
    requires now <= later < now + deltaMinutes * MinuteMs
    ensures var encoded := Base64.Btoa(json).value;
      ReadSnapshot(jar[SessionKey := Timed(encoded, now + deltaMinutes * MinuteMs, protocol)], later) == Snapshot(json)
  {
    Base64.AtobBtoa(json);
  }

  lemma ClearedReadsNothing(jar: Jar, now: int)
    ensures ReadSnapshot(Cleared(jar), now) == NoSnapshot
    ensures Get(Cleared(jar), TokenKey, now) == None && Get(Cleared(jar), RefreshTokenKey, now) == None
    ensures Cleared(Cleared(jar)) == Cleared(jar)
  {
  }

  /** `getCurrentSessionTokens()`. */
  datatype Tokens = Tokens(token: Option<string>, refreshToken: Option<string>)

  datatype StoreError = InvalidCharacter

  /** The cookie jar and session storage of one page. */
  class BrowserStore {
    var cookies: Jar
    var sessionStorage: map<string, string>
    /** `window.location.protocol`, absent where there is no window. */
    const protocol: Option<string>
    /** `parseInt(SESSION_DELTA)`: the access-token and snapshot lifetime in minutes. */
    const sessionDeltaMinutes: int

    constructor(protocol: Option<string>, sessionDeltaMinutes: int, cookies: Jar, sessionStorage: map<string, string>)
      ensures this.protocol == protocol && this.sessionDeltaMinutes == sessionDeltaMinutes
      ensures this.cookies == cookies && this.sessionStorage == sessionStorage
    {
      this.protocol := protocol;
      this.sessionDeltaMinutes := sessionDeltaMinutes;
      this.cookies := cookies;
      this.sessionStorage := sessionStorage;
    }

    /** `setToken(token)`. */
    method SetToken(token: string, now: int)
      modifies this`cookies
      ensures cookies == WithToken(old(cookies), token, now, sessionDeltaMinutes, protocol)
    {
      var expiry := now + sessionDeltaMinutes * MinuteMs;
      var secure := protocol.Some? && protocol.value == "https:";
      cookies := cookies[TokenKey := Cookie(token, Some(expiry), secure, Some(Lax))];
    }

    /** `setRefreshToken(refreshToken)`. */
    method SetRefreshToken(refreshToken: string, now: int)
      modifies this`cookies
      ensures cookies == WithRefreshToken(old(cookies), refreshToken, now, protocol)
    {
      var expiry := now + RefreshLifetimeMs;
      var secure := protocol.Some? && protocol.value == "https:";
      cookies := cookies[RefreshTokenKey := Cookie(refreshToken, Some(expiry), secure, Some(Lax))];
    }

    /** `getCurrentSessionTokens()`: both live token cookies, each possibly absent. */
    method GetCurrentSessionTokens(now: int) returns (t: Tokens)
      ensures t.token.Some? <==> TokenKey in cookies && (cookies[TokenKey].expires.None? || now < cookies[TokenKey].expires.value)
      ensures t.refreshToken.Some? <==>
                (RefreshTokenKey in cookies && (cookies[RefreshTokenKey].expires.None? || now < cookies[RefreshTokenKey].expires.value))
      ensures t.token.Some? ==> t.token.value == cookies[TokenKey].value
      ensures t.refreshToken.Some? ==> t.refreshToken.value == cookies[RefreshTokenKey].value
    {
      t := Tokens(Get(cookies, TokenKey, now), Get(cookies, RefreshTokenKey, now));
    }

    /** `getToken()`: the same access token `getCurrentSessionTokens` reports. */
    method GetToken(now: int) returns (token: Option<string>)
      ensures token == Get(cookies, TokenKey, now)
      ensures token.Some? ==> TokenKey in cookies && token.value == cookies[TokenKey].value
    {
      token := Get(cookies, TokenKey, now);
    }

    /** `saveCurrentSession(data)`: the old snapshot cookie is removed first; when
        `btoa` throws on a character above U+00FF nothing else happens, otherwise
        the encoded text is written to the cookie (with the session lifetime) and
        to session storage. */
    method SaveCurrentSession(json: string, now: int) returns (r: Outcome<StoreError>)
      modifies this`cookies, this`sessionStorage
      ensures r.Pass? <==> Base64.IsLatin1(json)
      ensures r.Fail? ==> cookies == old(cookies) - {SessionKey} && sessionStorage == old(sessionStorage)
      ensures r.Pass? ==>
        cookies == old(cookies)[SessionKey := Timed(Base64.Btoa(json).value, now + sessionDeltaMinutes * MinuteMs, protocol)]
        && sessionStorage == old(sessionStorage)[SessionKey := Base64.Btoa(json).value]
    {
      cookies := cookies - {SessionKey};
      var expiry := now + sessionDeltaMinutes * MinuteMs;
      var encoded := Base64.Btoa(json);
      if encoded.None? {
        return Fail(InvalidCharacter);
      }
      var secure := protocol.Some? && protocol.value == "https:";
      cookies := cookies[SessionKey := Cookie(encoded.value, Some(expiry), secure, Some(Lax))];
      sessionStorage := sessionStorage[SessionKey := encoded.value];
      r := Pass;
    }

    /** `setCurrentSessionCookies(data)`: a session cookie (no expiry, no attributes),
        session storage untouched. */
    method SetCurrentSessionCookies(json: string) returns (r: Outcome<StoreError>)
      modifies this`cookies
      ensures r.Pass? <==> Base64.IsLatin1(json)
      ensures r.Fail? ==> cookies == old(cookies)
      ensures r.Pass? ==> cookies == old(cookies)[SessionKey := Cookie(Base64.Btoa(json).value, None, false, None)]
    {
      var encoded := Base64.Btoa(json);
      if encoded.None? {
        return Fail(InvalidCharacter);
      }
      cookies := cookies[SessionKey := Cookie(encoded.value, None, false, None)];
      r := Pass;
    }

    /** `getCurrentSessionCookies()`. */
    method GetCurrentSessionCookies(now: int) returns (r: SnapshotRead)
      ensures r == ReadSnapshot(cookies, now)
    {
      var v := Get(cookies, SessionKey, now);
      if v.None? || v.value == "" {
        return NoSnapshot;
      }
      var json := Base64.Atob(v.value);
      if json.None? {
        return Malformed;
      }
      r := Snapshot(json.value);
    }

    /** `removeAllCookies()`: the three cookies and the stored snapshot are gone,
        everything else is kept. */
    method RemoveAllCookies()
      modifies this`cookies, this`sessionStorage
      ensures cookies == Cleared(old(cookies))
      ensures sessionStorage == old(sessionStorage) - {SessionKey}
    {
      cookies := cookies - {TokenKey};
      cookies := cookies - {RefreshTokenKey};
      cookies := cookies - {SessionKey};
      sessionStorage := sessionStorage - {SessionKey};
    }
  }

  /** A page that saves a snapshot and reads it back within the session lifetime
      gets the same JSON text; after `removeAllCookies` it reads nothing. */
  method SaveThenRead(protocol: Option<string>, deltaMinutes: int, json: string, now: int, later: int)
    returns (saved: Outcome<StoreError>, first: SnapshotRead, afterClear: SnapshotRead)
    requires now <= later < now + deltaMinutes * MinuteMs
    ensures saved.Pass? <==> Base64.IsLatin1(json)
    ensures saved.Pass? && json != [] ==> first == Snapshot(json)
    ensures saved.Pass? && json == [] ==> first == NoSnapshot
    ensures saved.Fail? ==> first == NoSnapshot
    ensures afterClear == NoSnapshot
  {
    var store := new BrowserStore(protocol, deltaMinutes, map[], map[]);
    saved := store.SaveCurrentSession(json, now);
    if saved.Pass? && json != [] {
      SnapshotRoundTrip(map[], json, now, later, deltaMinutes, protocol);
    }
    first := store.GetCurrentSessionCookies(later);
    store.RemoveAllCookies();
    afterClear := store.GetCurrentSessionCookies(later);
  }
}
