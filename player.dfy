/** The playback-control routes (app/routers/player.py). The upstream control
    call is a parameter that reports success or failure. */
module Player {
  import opened Common
  import opened Session
  import opened Auth

  datatype Action = Play | Pause | Next | Previous

  /** `PUT /me/player/play`, `PUT /me/player/pause`, `POST /me/player/next`,
      `POST /me/player/previous` with a bearer token. */
  type ControlCall = (Action, string) -> bool

  /** The direction a skip action names in its status. */
  function Direction(action: Action): (direction: string) {
    if action == Next then "next" else "previous"
  }

  /** The status shown after a control call (the source's spelling kept).
      Play and pause report the state the player is taken to be in: "Playing"
      exactly when a play succeeded or a pause failed. A skip reports its
      direction, with a different opening for success and failure. */
  function Status(action: Action, success: bool): (status: string)
    ensures action == Play || action == Pause ==>
              status == if success == (action == Play) then "Playing" else "Paused"
    ensures action == Next || action == Previous ==>
              status == (if success then "Skipped to " else "FAiled to skip to ") + Direction(action) + " track"
  {
    match action
    case Play => if success then "Playing" else "Paused"
    case Pause => if success then "Paused" else "Playing"
    case Next => if success then "Skipped to next track" else "FAiled to skip to next track"
    case Previous => if success then "Skipped to previous track" else "FAiled to skip to previous track"
  }

  /** Success and failure of the same action are told apart. */
  lemma StatusTellsOutcome(action: Action)
    ensures Status(action, true) != Status(action, false)
  {
  }

  /** A failed play reads as paused and a failed pause as playing: the
      status names the state the player is taken to be in. */
  lemma PlayPauseMirror(success: bool)
    ensures Status(Play, true) == "Playing" && Status(Play, false) == "Paused"
    ensures Status(Pause, true) == "Paused" && Status(Pause, false) == "Playing"
    ensures Status(Play, success) == Status(Pause, !success)
  {
  }

  /** Skipping is reported with its direction on success, and failures are
      never reported as one of the success statuses. */
  lemma SkipStatuses()
    ensures Status(Next, true) == "Skipped to next track"
    ensures Status(Previous, true) == "Skipped to previous track"
    ensures Status(Next, false) == "FAiled to skip to next track"
    ensures Status(Previous, false) == "FAiled to skip to previous track"
    ensures forall a: Action :: Status(a, false) != Status(Next, true) && Status(a, false) != Status(Previous, true)
  {
  }

  /** Each handler: obtain a valid token, issue the control call with it, render the status. */
  method HandleControl(s: BrowserSession, action: Action, now: int, refresh: RefreshCall, control: ControlCall)
    returns (r: Result<string, AuthError>)
    modifies s
    ensures var o := ValidAccessToken(old(s.user), now, refresh);
            && s.user == o.user
            && (o.token.Err? ==> r == Err(o.token.error))
            && (o.token.Ok? ==> r == Ok(Status(action, control(action, o.token.value))))
    ensures s.others == old(s.others)
  {
    var accessToken := GetValidAccessToken(s, now, refresh);
    if accessToken.Err? {
      return Err(accessToken.error);
    }
    var success := control(action, accessToken.value);
    r := Ok(Status(action, success));
  }
}
