# Now Playing: a Dafny model of the session, token and polling logic

The application is a small web front end for a music-streaming service. A user
logs in with the OAuth2 authorization-code flow. The server keeps the user's
tokens in a per-browser session and refreshes the access token when it is
within 60 seconds of expiring. Pages show the track that is playing, and
buttons send play, pause, next and previous commands. A browser script polls
every three seconds. It rewrites the progress text and reloads the track
information when the track changes.

This project models that logic:

- `common.dfy`: `Option`, `Result`, and `Field`. A `Field` is a JSON member as
  Python's `dict.get` sees it: missing, `null`, or a value.
- `session.dfy` (module `Session`): class `BrowserSession` holds the `user`
  record and the session's other keys. Its methods store, clear, read and
  update the record in place. Pure functions `StoredRecord` and `Updated`
  specify them.
- `auth.py` is modelled in `auth.dfy` (module `Auth`). It covers the refresh
  test, the intended refresh composition as the value-level function
  `ValidAccessToken`, and methods over a `BrowserSession` for login, logout,
  refresh and obtaining a token. It also models the code as written (see
  Findings).
- `now_playing.dfy` (module `NowPlaying`): the progress and track-info
  projections of a playback record, the full page, and the three endpoints.
  Each endpoint obtains a token first.
- `player.dfy` (module `Player`): the status table for control results and
  the handler that obtains a token and issues the control call.
- `now_playing_client.dfy` (module `NowPlayingClient`): the browser script.
  Class `Poller` holds `currentTrackId` and the two page elements. The file
  also has functions over a run of polls and the decimal rendering of the
  progress text.

The model replaces upstream HTTP calls with function-typed parameters:
code → tokens, access token → profile, stored refresh token → tokens,
access token → playback, and (action, access token) → success. A failed
call returns its HTTP status. The clock is an integer parameter `now`, in
whole seconds.

## Model

| member | source | states |
|---|---|---|
| `Session.StoredRecord` | app/core/session.py:4-11 | The login record holds the profile id and the exchanged access token. `display_name` is "User" only when the key is missing; an explicit null stays null. `refresh_token` is none when the response lacks one. The expiry is now + `expires_in`, and `expires_in` defaults to 3600. |
| `Session.Updated` | app/core/session.py:19-23 | A refresh replaces the access token and sets expiry to now + `expires_in` (default 3600). It keeps id and display name. It keeps the old refresh token when the response has no such key, takes the new one when present, and stores none for an explicit null. |
| `Session.UpdatedIdempotent` | app/core/session.py:19-23 | Writing the same refresh response twice at the same instant equals writing it once. |
| `Session.UpdatedAfterStoreIsStore` | app/core/session.py:22-23 | A refresh whose response has the `refresh_token` key, even as null, leaves exactly the record a new login with that response would store. |
| `Session.UpdatedKeepsLoginRefreshToken` | app/core/session.py:22-23 | After a refresh without a refresh token, the record keeps the refresh token stored at login. |
| `Session.BrowserSession.constructor` | app/main.py:15 | A new browser session is empty. |
| `Session.BrowserSession.StoreUserSession` | app/core/session.py:4-11 | The whole `user` record becomes `StoredRecord(...)`, whatever record was there before. Other keys are unchanged. |
| `Session.BrowserSession.ClearUserSession` | app/core/session.py:13-14 | Afterwards the session has no user and no other keys. |
| `Session.BrowserSession.GetUserFromSession` | app/core/session.py:16-17 | Returns the stored record, or none when there is none. |
| `Session.BrowserSession.UpdateTokenInSession` | app/core/session.py:19-23 | With a record present, the record becomes `Updated(old, tokens, now)`. With none (the source's `KeyError`), it reports failure and changes nothing. Other keys are unchanged. |
| `Auth.NeedsRefresh` | app/core/auth.py:39-40 | A refresh is due exactly when less than 60 s remain before expiry. A record without an expiry counts as expiry 0, so at any non-negative time a refresh is due. |
| `Auth.RefreshThreshold` | app/core/auth.py:40 | 30 s and 59 s before expiry refresh. 120 s and exactly 60 s before expiry do not. |
| `Auth.Refreshed` | app/core/auth.py:28-32 | The refresh asks upstream with the stored refresh token. It succeeds exactly when upstream does, and the new record is `Updated` with that response. An upstream error becomes `UpstreamFailure` with its status. |
| `Auth.ValidAccessToken` | app/core/auth.py:36-44 | With no record, the result is `Unauthenticated` and the session stays empty. Id and display name never change. A returned token is the access token left in the session. A due refresh whose upstream call fails returns `UpstreamFailure` with that status. On an error the record is unchanged. |
| `Auth.NoRefreshKeepsRecord` | app/core/auth.py:37-44 | When no refresh is due, the stored access token is returned and the record is untouched. |
| `Auth.RefreshUsesStoredRefreshToken` | app/core/auth.py:29-31 | Two upstreams that give the same answer for the stored refresh token produce the same outcome. The refresh depends only on that token. |
| `Auth.RefreshReplacesToken` | app/core/auth.py:32-34 | A due refresh that succeeds returns the new access token. The stored record becomes `Updated` with the response: the new token with expiry now + `expires_in`, and the response's refresh token when it carries one. It keeps the old refresh token when the response has none. |
| `Auth.ValidTokenStable` | app/core/auth.py:39-44 | After a successful call, a second call at the same instant returns the same token and changes nothing, if refresh responses grant more than 60 s. |
| `Auth.FreshLoginNeedsNoRefresh` | app/core/session.py:10 | Right after a login granting more than 60 s (the 3600 s default included), the exchanged token is returned without a refresh. |
| `Auth.GetValidAccessTokenAsWritten` | app/core/auth.py:28-44 | The code as written never changes the record. It returns a token exactly when a record exists and no refresh is due, and that token is the stored access token. Every due refresh raises `AttributeError`. |
| `Auth.AsWrittenRefreshAlwaysFails` | app/core/auth.py:41 | Wherever a refresh is due and upstream would grant one, the code as written fails and the intended composition succeeds. |
| `Auth.AsWrittenCounterexample` | app/core/auth.py:40-41 | A token 30 s from expiry: the code as written raises, and the intended composition returns the new token. |
| `Auth.HandleCallback` | app/core/auth.py:16-22 | If the code exchange or the profile fetch fails, the error is returned and the session is unchanged. On success the record is `StoredRecord` of the profile (fetched with the exchanged token) and the token response. Its access token is the exchanged one and its id is the profile's. |
| `Auth.LogoutUser` | app/core/auth.py:25-26 | The session is emptied, so no user is found afterwards. |
| `Auth.RefreshAccessToken` | app/core/auth.py:28-34 | Intended composition: with no record the result is `Unauthenticated`. Otherwise it returns the new access token and stores `Refreshed(...)`, or returns the upstream error and leaves the record unchanged. |
| `Auth.GetValidAccessToken` | app/core/auth.py:36-44 | The returned token and the new record are exactly `ValidAccessToken` of the old record. Other session keys are unchanged. |
| `NowPlaying.Progress` | app/routers/now_playing.py:39-48 | No playback or no item gives track id none with 0 and 0, and for tracks with an id, track id none happens only then. Otherwise the track id is the item's id. `progress_ms` comes from the playback record (default 0). `duration_ms` comes from the item (default 0). |
| `NowPlaying.TrackInfoFragment` | app/routers/now_playing.py:57-68 | The fixed "No track playing" fragment is returned exactly under the idle condition. Otherwise the item is rendered. |
| `NowPlaying.ProgressAgreesWithTrackInfo` | app/routers/now_playing.py:39-60 | For tracks with an id, progress reports no track exactly when track-info returns the "No track playing" fragment. Otherwise both name the same track id. |
| `NowPlaying.Page` | app/routers/now_playing.py:20-32 | The full page raises exactly when there is no playback record or it has no `item` key. An `item` of null renders with no track. With an item it shows that track. It also carries the user record and the playback. |
| `NowPlaying.PageIdleCases` | app/routers/now_playing.py:22-23 | An empty answer and a record without `item` raise. An `item` of null renders a page with no track. |
| `NowPlaying.NowPlayingPage` | app/routers/now_playing.py:18-32 | Playback is fetched with the valid token. The page shows the user record as it stands after the token call. The route reads the `user` dict first, but a refresh updates that same dict in place. An auth or page error is returned as such. |
| `NowPlaying.NowPlayingProgress` | app/routers/now_playing.py:34-49 | A valid token is obtained first and playback is fetched with it. The body is `Progress` of that playback. |
| `NowPlaying.NowPlayingTrackInfo` | app/routers/now_playing.py:52-68 | A valid token is obtained first and playback is fetched with it. The body is `TrackInfoFragment` of that playback. |
| `Player.Status` | app/routers/player.py:14-48 | Play and pause show "Playing" exactly when a play succeeded or a pause failed, and "Paused" otherwise. A skip shows "Skipped to" on success or "FAiled to skip to" on failure, then its direction and "track". |
| `Player.StatusTellsOutcome` | app/routers/player.py:18-48 | For each action, success and failure show different statuses. |
| `Player.PlayPauseMirror` | app/routers/player.py:18-30 | Play success shows "Playing" and play failure shows "Paused". Pause success shows "Paused" and pause failure shows "Playing". So each play outcome mirrors the opposite pause outcome. |
| `Player.SkipStatuses` | app/routers/player.py:36-48 | Next and previous show "Skipped to next/previous track" on success and "FAiled to skip to next/previous track" on failure. No failure shows a skip-success status. |
| `Player.HandleControl` | app/routers/player.py:14-48 | A valid token is obtained first, and the control call is issued with it. The status is the table entry for the call's result. An auth error is returned without a call. |
| `NowPlayingClient.IdleServerNoReload` | app/static/js/now_playing.js:12 | A poll answered with "nothing playing" never reloads the track info and leaves the tracked id unchanged. |
| `NowPlayingClient.TrackedIsLastPlaying` | app/static/js/now_playing.js:12-13 | After any run of polls, the tracked id is the last id reported as playing. If none was, it is the starting id. |
| `NowPlayingClient.ReloadsBounded` | app/static/js/now_playing.js:12-15 | Reloads happen only on polls that report something playing. A run reloads nothing exactly when every track it reports playing is the tracked one, and the tracked id then stays unchanged. |
| `NowPlayingClient.OneTrackReloadsOnce` | app/static/js/now_playing.js:12-14 | A new track reported on several polls, with idle polls between, is reloaded exactly once, whatever the fragment fetches return. |
| `NowPlayingClient.Seconds` | app/static/js/now_playing.js:22-23 | Whole seconds are rounded down: s·1000 ≤ ms < s·1000 + 1000. |
| `NowPlayingClient.DecimalRoundTrip` | app/static/js/now_playing.js:27 | The decimal text of an integer reads back as that integer. |
| `NowPlayingClient.ProgressTextDetermines` | app/static/js/now_playing.js:22-27 | Two polls that show the same progress text have the same elapsed and total whole seconds. |
| `NowPlayingClient.Poller.constructor` | app/static/js/now_playing.js:1 | The tracked id starts as null. |
| `NowPlayingClient.Poller.UpdateProgressBar` | app/static/js/now_playing.js:21-29 | The progress element reads "⌊progress/1000⌋ seconds of ⌊duration/1000⌋". Nothing else changes. |
| `NowPlayingClient.Poller.RefreshTrackInfo` | app/static/js/now_playing.js:31-39 | A fetched fragment replaces the track-info HTML. A failed fetch leaves it unchanged. |
| `NowPlayingClient.Poller.UpdateNowPlaying` | app/static/js/now_playing.js:3-19 | A failed poll changes nothing. Otherwise the progress text is rewritten on every poll. A reload happens exactly when the polled id is truthy and differs from the tracked id. The tracked id becomes the polled one before the fragment fetch, so it is updated even if the fetch fails. |

## Findings

| source | as written | input that shows it | evidently intended | confidence | as-written member | corrected member |
|---|---|---|---|---|---|---|
| app/core/auth.py:41 | `get_valid_access_token` passes `request.session` to `refresh_access_token`. At line 28 that name is the local function, which shadows the upstream one imported at line 6. The local function reads `.session` from a dict and raises `AttributeError`. Its own line 31 would call itself with a string. So every due refresh fails. | A stored token 30 s from expiry, with an upstream that would grant a new token (`Auth.AsWrittenCounterexample`). | Read the stored refresh token, call the upstream refresh with it, write the response into the session with `update_token_in_session`, and return the new access token. | high; not executed | `Auth.GetValidAccessTokenAsWritten`, `Auth.AsWrittenRefreshAlwaysFails` | `Auth.ValidAccessToken`, `Auth.RefreshAccessToken`, `Auth.GetValidAccessToken` |

Everything else in the model uses the intended composition. The endpoints and
handlers build on `Auth.GetValidAccessToken`.

## Left out

- Upstream calls (app/core/spotify.py): the token, profile and refresh calls are parameters. `get_spotify_auth_url` and `get_callback_url` build a URL from environment settings and are not modelled.
- `get_current_playback` and the control calls `spotify_play`, `spotify_pause`, `spotify_next`, `spotify_previous` are imported but not defined in the source. The model takes the playback record and the success flag as inputs. It makes no rule from status codes to success, and it does not model failures of the playback fetch.
- An absent session user raises `AttributeError` in the source. The model reports it as `Unauthenticated`. Redirects, HTTP 500 responses and logging are not modelled.
- With no stored refresh token, the code sends `None` upstream rather than raising an authentication error. The model follows the code: the refresh call receives the stored `Option`.
- `time.time()` returns a float. The model uses whole seconds.
- A request reads the clock more than once: for the refresh test (app/core/auth.py:40) and again, after the upstream refresh returns, for the new expiry (app/core/session.py:21). The model collapses a request's clock reads into one instant `now`.
- `NowPlaying.ProgressAgreesWithTrackInfo`: holds only for tracks with an id. An explicit `null` track `id` is not modelled: `Track.id` is a string. For that input the source reports `track_id` null from a record that is not idle, while track-info renders the item, and the browser script never reloads the track info for it.
- Required keys (`id` of the profile and of the track, `access_token`) are mandatory fields in the model. The `KeyError` that their absence would raise is not modelled.
- `expires_in`, `progress_ms` and `duration_ms` are modelled only as present or missing. An explicit `null` in them is not modelled.
- The nested `user` dict is updated in place in the source. The model writes back a new record value instead. The one holder of an earlier reference is the full page (app/routers/now_playing.py:20), and it sees the update; the model matches this by reading the record after the token call.
- A playback `item` that is an empty object (which Python treats as false) is not modelled. Every track has an id.
- Templates and HTML rendering, app/main.py wiring, app/routers/auth.py and app/routers/pages.py, async/await.
- Browser script: `fetch`, DOM lookups, and the `if (progressText)` check for a missing element. The `setInterval` timing and overlapping polls are left out too. A run of polls is a sequence of poll results taken in order.
- `NowPlayingClient.Decimal`: renders integers only. It does not model JavaScript's exponent notation for magnitudes of 10^21 and above, or non-integer numbers.
