/** The token lifecycle (app/core/auth.py): login, logout, and handing out an
    access token that is refreshed when it is within a minute of expiring.
    Upstream HTTP calls are parameters; a failed call yields its status code. */
module Auth {
  import opened Common
  import opened Session

  /** Seconds before expiry at which a token is already refreshed. */
  const RefreshMarginSeconds: int := 60

  datatype AuthError =
    | Unauthenticated              // the session holds no "user" record
    | UpstreamFailure(status: int) // the token or profile endpoint answered with an error status
    | SessionAttributeError        // the refresh path as written raises before any upstream call

  /** What obtaining a token returns, and the "user" record left in the session. */
  datatype TokenOutcome = TokenOutcome(token: Result<string, AuthError>, user: Option<UserRecord>)

  /** `POST /api/token` with `grant_type=authorization_code`. */
  type CodeExchange = string -> Result<TokenResponse, int>
  /** `GET /v1/me` with a bearer token. */
  type ProfileFetch = string -> Result<Profile, int>
  /** `POST /api/token` with `grant_type=refresh_token`; the stored refresh
      token is sent as it is, `None` included. */
  type RefreshCall = Option<string> -> Result<TokenResponse, int>

  /** The refresh test; a record without an expiry counts as expiring at time 0. */
  function NeedsRefresh(tokenExpiry: Option<int>, now: int): (due: bool)
    ensures due <==> tokenExpiry.GetOr(0) - now < RefreshMarginSeconds
    ensures tokenExpiry.None? && now >= 0 ==> due
  {
    now > tokenExpiry.GetOr(0) - RefreshMarginSeconds
  }

  /** The threshold cases: 30 seconds left refreshes, 120 or exactly 60 do not. */
  lemma RefreshThreshold(expiry: int)
    ensures NeedsRefresh(Some(expiry), expiry - 30)
    ensures !NeedsRefresh(Some(expiry), expiry - 120)
    ensures !NeedsRefresh(Some(expiry), expiry - 60)
    ensures NeedsRefresh(Some(expiry), expiry - 59)
  {
  }

  /** The intended `refresh_access_token`: ask upstream with the stored refresh
      token and write the answer into the record. */
  function Refreshed(u: UserRecord, now: int, refresh: RefreshCall): (r: Result<UserRecord, AuthError>)
    ensures refresh(u.refreshToken).Ok? <==> r.Ok?
    ensures r.Ok? ==> r.value == Updated(u, refresh(u.refreshToken).value, now)
    ensures r.Err? ==> r.error == UpstreamFailure(refresh(u.refreshToken).error)
  {
    match refresh(u.refreshToken)
    case Ok(tokens) => Ok(Updated(u, tokens, now))
    case Err(status) => Err(UpstreamFailure(status))
  }

  /** The intended `get_valid_access_token` on session values. */
  function ValidAccessToken(user: Option<UserRecord>, now: int, refresh: RefreshCall): (o: TokenOutcome)
    ensures user.None? ==> o == TokenOutcome(Err(Unauthenticated), None)
    ensures o.user.Some? <==> user.Some?
    ensures o.user.Some? ==> o.user.value.id == user.value.id
                             && o.user.value.displayName == user.value.displayName
    ensures o.token.Ok? ==> o.user.Some? && o.token.value == o.user.value.accessToken
    ensures o.token.Err? ==> o.user == user
    ensures user.Some? && NeedsRefresh(user.value.tokenExpiry, now) && refresh(user.value.refreshToken).Err? ==>
              o.token == Err(UpstreamFailure(refresh(user.value.refreshToken).error))
  {
    match user
    case None => TokenOutcome(Err(Unauthenticated), None)
    case Some(u) =>
      if !NeedsRefresh(u.tokenExpiry, now) then TokenOutcome(Ok(u.accessToken), user)
      else
        match Refreshed(u, now, refresh)
        case Ok(u') => TokenOutcome(Ok(u'.accessToken), Some(u'))
        case Err(e) => TokenOutcome(Err(e), user)
  }

  /** When no refresh is due, the stored token is returned and the record is untouched. */
  lemma NoRefreshKeepsRecord(user: Option<UserRecord>, now: int, refresh: RefreshCall)
    requires user.Some? && !NeedsRefresh(user.value.tokenExpiry, now)
    ensures ValidAccessToken(user, now, refresh) == TokenOutcome(Ok(user.value.accessToken), user)
  {
  }

  /** A refresh is requested with the stored refresh token: any two upstreams
      that answer that token alike give the same outcome. */
  lemma RefreshUsesStoredRefreshToken(user: Option<UserRecord>, now: int, f: RefreshCall, g: RefreshCall)
    requires user.Some? && f(user.value.refreshToken) == g(user.value.refreshToken)
    ensures ValidAccessToken(user, now, f) == ValidAccessToken(user, now, g)
  {
  }

  /** A due refresh that succeeds returns and stores the new access token and
      keeps the old refresh token unless the response carries one. */
  lemma RefreshReplacesToken(user: Option<UserRecord>, now: int, refresh: RefreshCall)
    requires user.Some? && NeedsRefresh(user.value.tokenExpiry, now)
    requires refresh(user.value.refreshToken).Ok?
    ensures var tokens := refresh(user.value.refreshToken).value;
            var o := ValidAccessToken(user, now, refresh);
            && o.token == Ok(tokens.accessToken)
            && o.user == Some(Updated(user.value, tokens, now))
            && (tokens.refreshToken.Present? ==> o.user.value.refreshToken == Some(tokens.refreshToken.value))
            && o.user.value.tokenExpiry == Some(now + ExpiresIn(tokens))
            && (tokens.refreshToken.Absent? ==> o.user.value.refreshToken == user.value.refreshToken)
  {
  }

  /** Asking again at the same instant after a successful call changes nothing,
      provided a refresh response grants more than the 60-second margin. */
  lemma ValidTokenStable(user: Option<UserRecord>, now: int, refresh: RefreshCall, again: RefreshCall)
    requires user.Some?
    requires refresh(user.value.refreshToken).Ok? ==>
               ExpiresIn(refresh(user.value.refreshToken).value) > RefreshMarginSeconds
    requires ValidAccessToken(user, now, refresh).token.Ok?
    ensures var o := ValidAccessToken(user, now, refresh);
            ValidAccessToken(o.user, now, again) == o
  {
  }

  /** Right after login with the default or any lifetime over a minute, the
      exchanged token is handed out without a refresh. */
  lemma FreshLoginNeedsNoRefresh(profile: Profile, tokens: TokenResponse, now: int, refresh: RefreshCall)
    requires ExpiresIn(tokens) > RefreshMarginSeconds
    ensures var u := Some(StoredRecord(profile, tokens, now));
            ValidAccessToken(u, now, refresh) == TokenOutcome(Ok(tokens.accessToken), u)
  {
  }

  /** `get_valid_access_token` as written: line 41 passes `request.session`
      where a request is expected, and the name `refresh_access_token` is the
      local function, so every due refresh raises before any upstream call. */
  function GetValidAccessTokenAsWritten(user: Option<UserRecord>, now: int): (o: TokenOutcome)
    ensures o.user == user
    ensures o.token.Ok? <==> user.Some? && !NeedsRefresh(user.value.tokenExpiry, now)
    ensures o.token.Ok? ==> o.token.value == user.value.accessToken
    ensures user.Some? && NeedsRefresh(user.value.tokenExpiry, now) ==> o.token == Err(SessionAttributeError)
  {
    match user
    case None => TokenOutcome(Err(Unauthenticated), None)
    case Some(u) =>
      if NeedsRefresh(u.tokenExpiry, now) then TokenOutcome(Err(SessionAttributeError), user)
      else TokenOutcome(Ok(u.accessToken), user)
  }

  /** Wherever a refresh is due and the upstream would grant one, the code as
      written fails while the intended composition succeeds. */
  lemma AsWrittenRefreshAlwaysFails(user: Option<UserRecord>, now: int, refresh: RefreshCall)
    requires user.Some? && NeedsRefresh(user.value.tokenExpiry, now)
    requires refresh(user.value.refreshToken).Ok?
    ensures GetValidAccessTokenAsWritten(user, now).token == Err(SessionAttributeError)
    ensures ValidAccessToken(user, now, refresh).token.Ok?
  {
  }

  /** A concrete input: a token 30 seconds from expiry. */
  lemma AsWrittenCounterexample()
    ensures var u := Some(UserRecord("alice", Some("Alice"), "old", Some("r1"), Some(1030)));
            var refresh: RefreshCall := _ => Ok(TokenResponse("new", Absent, None));
            && GetValidAccessTokenAsWritten(u, 1000).token == Err(SessionAttributeError)
            && ValidAccessToken(u, 1000, refresh).token == Ok("new")
  {
  }

  /** `handle_callback`: exchange the code, fetch the profile with the new
      token, store the record. A failing upstream call raises and the session
      is left as it was. */
  method HandleCallback(s: BrowserSession, code: string, now: int,
                        exchange: CodeExchange, fetchProfile: ProfileFetch)
    returns (r: Result<(), AuthError>)
    modifies s
    ensures exchange(code).Err? ==>
              r == Err(UpstreamFailure(exchange(code).error)) && s.user == old(s.user)
    ensures exchange(code).Ok? && fetchProfile(exchange(code).value.accessToken).Err? ==>
              r == Err(UpstreamFailure(fetchProfile(exchange(code).value.accessToken).error))
              && s.user == old(s.user)
    ensures r.Ok? <==> exchange(code).Ok? && fetchProfile(exchange(code).value.accessToken).Ok?
    ensures r.Ok? ==>
              var tokens := exchange(code).value;
              var profile := fetchProfile(tokens.accessToken).value;
              && s.user == Some(StoredRecord(profile, tokens, now))
              && s.user.value.accessToken == tokens.accessToken
              && s.user.value.id == profile.id
    ensures s.others == old(s.others)
  {
    var tokens := exchange(code);
    if tokens.Err? {
      return Err(UpstreamFailure(tokens.error));
    }
    var accessToken := tokens.value.accessToken;
    var userData := fetchProfile(accessToken);
    if userData.Err? {
      return Err(UpstreamFailure(userData.error));
    }
    s.StoreUserSession(userData.value, tokens.value, now);
    r := Ok(());
  }

  /** `logout_user`: the session is emptied, so no user is found afterwards. */
  method LogoutUser(s: BrowserSession)
    modifies s
    ensures s.user == None && s.others == map[]
  {
    s.ClearUserSession();
  }

  /** The intended `refresh_access_token`: read the stored refresh token, call
      upstream with it, write the response into the session, return the new
      access token. */
  method RefreshAccessToken(s: BrowserSession, now: int, refresh: RefreshCall)
    returns (r: Result<string, AuthError>)
    modifies s
    ensures old(s.user).None? ==> r == Err(Unauthenticated) && s.user == old(s.user)
    ensures old(s.user).Some? ==>
              var next := Refreshed(old(s.user).value, now, refresh);
              && (next.Ok? ==> r == Ok(next.value.accessToken) && s.user == Some(next.value))
              && (next.Err? ==> r == Err(next.error) && s.user == old(s.user))
    ensures s.others == old(s.others)
  {
    var user := s.GetUserFromSession();
    if user.None? {
      return Err(Unauthenticated);
    }
    var refreshToken := user.value.refreshToken;
    var tokens := refresh(refreshToken);
    if tokens.Err? {
      return Err(UpstreamFailure(tokens.error));
    }
    var found := s.UpdateTokenInSession(tokens.value, now);
    r := Ok(tokens.value.accessToken);
  }

  /** `get_valid_access_token` with the intended refresh; the record is re-read
      from the session after a refresh. */
  method GetValidAccessToken(s: BrowserSession, now: int, refresh: RefreshCall)
    returns (r: Result<string, AuthError>)
    modifies s
    ensures TokenOutcome(r, s.user) == ValidAccessToken(old(s.user), now, refresh)
    ensures s.others == old(s.others)
  {
    var user := s.GetUserFromSession();
    if user.None? {
      return Err(Unauthenticated);
    }
    if NeedsRefresh(user.value.tokenExpiry, now) {
      var refreshed := RefreshAccessToken(s, now, refresh);
      if refreshed.Err? {
        return Err(refreshed.error);
      }
      user := s.GetUserFromSession();
    }
    r := Ok(user.value.accessToken);
  }
}
