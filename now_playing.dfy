/** The now-playing routes (app/routers/now_playing.py): projections of the
    upstream playback record, and the three endpoints that fetch it. */
module NowPlaying {
  import opened Common
  import opened Session
  import opened Auth

  /** The `item` of a playback record; `id` is required. */
  datatype Track = Track(id: string, durationMs: Option<int>)

  /** The current-playback record. */
  datatype Playback = Playback(item: Field<Track>, progressMs: Option<int>)

  /** The JSON body of `/now-playing/progress`. */
  datatype ProgressData = ProgressData(trackId: Option<string>, progressMs: int, durationMs: int)

  /** The body of `/now-playing/track-info`. */
  datatype TrackFragment = NoTrackPlaying | TrackInfo(track: Track)

  /** The full page's template context. */
  datatype PageView = PageView(user: Option<UserRecord>, track: Option<Track>, playback: Playback)

  /** Why the full page raises: no playback record at all, or one without an `item` key. */
  datatype PageError = NoPlayback | MissingItem

  /** The fixed HTML of the "nothing playing" fragment. */
  const NoTrackPlayingHtml: string := "<p>No track playing</p>"

  /** `GET /me/player/currently-playing` with a bearer token; `None` is an empty answer. */
  type PlaybackFetch = string -> Option<Playback>

  /** The guard `not playback or not playback.get("item")`. */
  predicate Idle(playback: Option<Playback>) {
    playback.None? || !playback.value.item.Present?
  }

  /** The progress projection. */
  function Progress(playback: Option<Playback>): (r: ProgressData)
    ensures r.trackId.None? <==> Idle(playback)
    ensures Idle(playback) ==> r == ProgressData(None, 0, 0)
    ensures !Idle(playback) ==>
              var track := playback.value.item.value;
              && r.trackId == Some(track.id)
              && r.progressMs == playback.value.progressMs.GetOr(0)
              && r.durationMs == track.durationMs.GetOr(0)
  {
    if Idle(playback) then ProgressData(None, 0, 0)
    else
      var track := playback.value.item.value;
      ProgressData(Some(track.id), playback.value.progressMs.GetOr(0), track.durationMs.GetOr(0))
  }

  /** The track-info projection. */
  function TrackInfoFragment(playback: Option<Playback>): (f: TrackFragment)
    ensures f.NoTrackPlaying? <==> Idle(playback)
    ensures f.TrackInfo? ==> f.track == playback.value.item.value
  {
    if Idle(playback) then NoTrackPlaying else TrackInfo(playback.value.item.value)
  }

  /** The progress body and the track-info fragment agree on whether, and
      which, track is playing. */
  lemma ProgressAgreesWithTrackInfo(playback: Option<Playback>)
    ensures Progress(playback).trackId.None? <==> TrackInfoFragment(playback) == NoTrackPlaying
    ensures Progress(playback).trackId.Some? ==>
              Progress(playback).trackId.value == TrackInfoFragment(playback).track.id
  {
  }

  /** The full page reads `playback["item"]` with no guard. */
  function Page(user: Option<UserRecord>, playback: Option<Playback>): (r: Result<PageView, PageError>)
    ensures r.Err? <==> playback.None? || playback.value.item.Absent?
    ensures playback.Some? && playback.value.item.Null? ==> r.Ok? && r.value.track.None?
    ensures !Idle(playback) ==> r.Ok? && r.value.track == Some(playback.value.item.value)
    ensures r.Ok? ==> r.value.user == user && Some(r.value.playback) == playback
  {
    match playback
    case None => Err(NoPlayback)
    case Some(p) =>
      match p.item
      case Absent => Err(MissingItem)
      case Null => Ok(PageView(user, None, p))
      case Present(t) => Ok(PageView(user, Some(t), p))
  }

  /** The page does not fail on every idle record: an `item` present as
      `null` renders with no track, while an empty answer raises. */
  lemma PageIdleCases()
    ensures var p := Some(Playback(Null, None));
            Idle(p) && Page(None, p) == Ok(PageView(None, None, p.value))
    ensures Page(None, None) == Err(NoPlayback)
    ensures Page(None, Some(Playback(Absent, Some(5)))) == Err(MissingItem)
  {
  }

  datatype PageFailure = PageAuth(auth: AuthError) | PageRaised(page: PageError)

  /** `GET /now-playing`: a valid token is obtained and the playback fetched
      with it. The route takes the `user` dict before the token call, but a
      refresh writes into that same dict, so the page shows the record as it
      stands after the token call; the model reads it from the session then. */
  method NowPlayingPage(s: BrowserSession, now: int, refresh: RefreshCall, currentPlayback: PlaybackFetch)
    returns (r: Result<PageView, PageFailure>)
    modifies s
    ensures var o := ValidAccessToken(old(s.user), now, refresh);
            && s.user == o.user
            && (o.token.Err? ==> r == Err(PageAuth(o.token.error)))
            && (o.token.Ok? ==>
                  var page := Page(o.user, currentPlayback(o.token.value));
                  r == if page.Ok? then Ok(page.value) else Err(PageRaised(page.error)))
    ensures s.others == old(s.others)
  {
    var accessToken := GetValidAccessToken(s, now, refresh);
    if accessToken.Err? {
      return Err(PageAuth(accessToken.error));
    }
    var user := s.GetUserFromSession();
    var playback := currentPlayback(accessToken.value);
    var page := Page(user, playback);
    if page.Err? {
      return Err(PageRaised(page.error));
    }
    r := Ok(page.value);
  }

  /** `GET /now-playing/progress`. */
  method NowPlayingProgress(s: BrowserSession, now: int, refresh: RefreshCall, currentPlayback: PlaybackFetch)
    returns (r: Result<ProgressData, AuthError>)
    modifies s
    ensures var o := ValidAccessToken(old(s.user), now, refresh);
            && s.user == o.user
            && (o.token.Err? ==> r == Err(o.token.error))
            && (o.token.Ok? ==> r == Ok(Progress(currentPlayback(o.token.value))))
    ensures s.others == old(s.others)
  {
    var accessToken := GetValidAccessToken(s, now, refresh);
    if accessToken.Err? {
      return Err(accessToken.error);
    }
    var playback := currentPlayback(accessToken.value);
    r := Ok(Progress(playback));
  }

  /** `GET /now-playing/track-info`. */
  method NowPlayingTrackInfo(s: BrowserSession, now: int, refresh: RefreshCall, currentPlayback: PlaybackFetch)
    returns (r: Result<TrackFragment, AuthError>)
    modifies s
    ensures var o := ValidAccessToken(old(s.user), now, refresh);
            && s.user == o.user
            && (o.token.Err? ==> r == Err(o.token.error))
            && (o.token.Ok? ==> r == Ok(TrackInfoFragment(currentPlayback(o.token.value))))
    ensures s.others == old(s.others)
  {
    var accessToken := GetValidAccessToken(s, now, refresh);
    if accessToken.Err? {
      return Err(accessToken.error);
    }
    var playback := currentPlayback(accessToken.value);
    r := Ok(TrackInfoFragment(playback));
  }
}
