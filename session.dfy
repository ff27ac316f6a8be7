/** The per-browser session and the user record it holds (app/core/session.py). */
module Session {
  import opened Common

  /** Display name stored when the profile has no `display_name` key. */
  const DefaultDisplayName: string := "User"
  /** Lifetime, in seconds, assumed when a token response has no `expires_in`. */
  const DefaultExpiresIn: int := 3600

  /** The upstream profile (`GET /v1/me`); `id` is required. */
  datatype Profile = Profile(id: string, displayName: Field<string>)

  /** A token-endpoint response; `access_token` is required. */
  datatype TokenResponse = TokenResponse(
    accessToken: string,
    refreshToken: Field<string>,
    expiresIn: Option<int>)

  /** The record kept under the session key "user". `tokenExpiry` is an
      absolute time in whole seconds. */
  datatype UserRecord = UserRecord(
    id: string,
    displayName: Option<string>,
    accessToken: string,
    refreshToken: Option<string>,
    tokenExpiry: Option<int>)

  function ExpiresIn(tokens: TokenResponse): (seconds: int) {
    tokens.expiresIn.GetOr(DefaultExpiresIn)
  }

  /** The record written at login from the profile and the code-exchange response. */
  function StoredRecord(profile: Profile, tokens: TokenResponse, now: int): (u: UserRecord)
    ensures u.id == profile.id && u.accessToken == tokens.accessToken
    ensures u.displayName == (if profile.displayName.Absent? then Some(DefaultDisplayName)
                              else if profile.displayName.Null? then None
                              else Some(profile.displayName.value))
    ensures u.refreshToken.Some? <==> tokens.refreshToken.Present?
    ensures u.refreshToken.Some? ==> u.refreshToken.value == tokens.refreshToken.value
    ensures u.tokenExpiry == Some(now + ExpiresIn(tokens))
    ensures tokens.expiresIn.None? ==> u.tokenExpiry == Some(now + 3600)
  {
    UserRecord(
      profile.id,
      profile.displayName.Get(Some(DefaultDisplayName)),
      tokens.accessToken,
      tokens.refreshToken.Get(None),
      Some(now + ExpiresIn(tokens)))
  }

  /** The record after a refresh response has been written into it field by field. */
  function Updated(u: UserRecord, tokens: TokenResponse, now: int): (r: UserRecord)
    ensures r.id == u.id && r.displayName == u.displayName
    ensures r.accessToken == tokens.accessToken
    ensures r.tokenExpiry == Some(now + ExpiresIn(tokens))
    ensures tokens.refreshToken.Absent? ==> r.refreshToken == u.refreshToken
    ensures tokens.refreshToken.Present? ==> r.refreshToken == Some(tokens.refreshToken.value)
    ensures tokens.refreshToken.Null? ==> r.refreshToken == None
  {
    var refreshToken := if tokens.refreshToken.Absent? then u.refreshToken
                        else tokens.refreshToken.Get(None);
    u.(accessToken := tokens.accessToken,
       tokenExpiry := Some(now + ExpiresIn(tokens)),
       refreshToken := refreshToken)
  }

  /** Writing the same refresh response twice at the same instant changes
      nothing the second time. */
  lemma UpdatedIdempotent(u: UserRecord, tokens: TokenResponse, now: int)
    ensures Updated(Updated(u, tokens, now), tokens, now) == Updated(u, tokens, now)
  {
  }

  /** A refresh response that has the refresh-token key leaves exactly the record
      a fresh login with that response would have stored: nothing of the
      earlier tokens survives. */
  lemma UpdatedAfterStoreIsStore(profile: Profile, first: TokenResponse, later: TokenResponse,
                                 loginTime: int, now: int)
    requires !later.refreshToken.Absent?
    ensures Updated(StoredRecord(profile, first, loginTime), later, now) == StoredRecord(profile, later, now)
  {
  }

  /** A refresh response without a refresh token keeps the one stored at login. */
  lemma UpdatedKeepsLoginRefreshToken(profile: Profile, first: TokenResponse, later: TokenResponse,
                                      loginTime: int, now: int)
    requires later.refreshToken.Absent?
    ensures Updated(StoredRecord(profile, first, loginTime), later, now).refreshToken
            == first.refreshToken.Get(None)
  {
  }

  /** One browser's session: the "user" record and every other key the session holds. */
  class BrowserSession {
    var user: Option<UserRecord>
    var others: map<string, string>

    constructor ()
      ensures user == None && others == map[]
    {
      user := None;
      others := map[];
    }

    /** Login: the whole "user" record is replaced, whatever was there before. */
    method StoreUserSession(profile: Profile, tokens: TokenResponse, now: int)
      modifies this
      ensures user == Some(StoredRecord(profile, tokens, now))
      ensures others == old(others)
    {
      user := Some(StoredRecord(profile, tokens, now));
    }

    /** Logout: every key of the session is removed. */
    method ClearUserSession()
      modifies this
      ensures user == None && others == map[]
    {
      user := None;
      others := map[];
    }

    method GetUserFromSession() returns (u: Option<UserRecord>)
      ensures u == user
    {
      u := user;
    }

    /** Refresh: writes the new access token, expiry and (if the response has
        the key) refresh token into the stored record. With no record the
        source raises `KeyError`; then `found` is false and nothing changes. */
    method UpdateTokenInSession(tokens: TokenResponse, now: int) returns (found: bool)
      modifies this
      ensures found <==> old(user).Some?
      ensures found ==> user == Some(Updated(old(user).value, tokens, now))
      ensures !found ==> user == old(user)
      ensures others == old(others)
    {
      found := user.Some?;
      if found {
        user := Some(Updated(user.value, tokens, now));
      }
    }
  }
}
