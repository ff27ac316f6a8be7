/** The browser side of the now-playing page (app/static/js/now_playing.js):
    a poller that keeps the id of the track whose info is shown, reloads the
    track-info fragment when the polled id changes, and rewrites the progress
    text on every poll. */
module NowPlayingClient {
  import opened Common
  import opened NowPlaying

  /** JavaScript truthiness of the polled `track_id`: `null` and `""` are false. */
  predicate Playing(trackId: Option<string>) {
    trackId.Some? && trackId.value != ""
  }

  /** The test that triggers a reload of the track-info fragment. */
  predicate ShouldReload(current: Option<string>, polled: Option<string>) {
    Playing(polled) && polled != current
  }

  /** The tracked id after one successful poll. */
  function NextTracked(current: Option<string>, polled: Option<string>): (next: Option<string>) {
    if ShouldReload(current, polled) then polled else current
  }

  /** A poll that reports nothing playing never reloads the track info. */
  lemma IdleServerNoReload(current: Option<string>, playback: Option<Playback>)
    requires Idle(playback)
    ensures !ShouldReload(current, Progress(playback).trackId)
    ensures NextTracked(current, Progress(playback).trackId) == current
  {
  }

  // ---- successive polls -------------------------------------------------

  /** The tracked id after a run of successful polls, in order. */
  function TrackedAfter(current: Option<string>, polls: seq<Option<string>>): (tracked: Option<string>)
    decreases |polls|
  {
    if polls == [] then current else TrackedAfter(NextTracked(current, polls[0]), polls[1..])
  }

  /** How many of those polls reload the track info. */
  function Reloads(current: Option<string>, polls: seq<Option<string>>): (count: nat)
    decreases |polls|
  {
    if polls == [] then 0
    else (if ShouldReload(current, polls[0]) then 1 else 0)
         + Reloads(NextTracked(current, polls[0]), polls[1..])
  }

  /** The last id in the run that was reported as playing, read from the end. */
  function LastPlaying(polls: seq<Option<string>>): (last: Option<string>)
    decreases |polls|
  {
    if polls == [] then None
    else if Playing(polls[|polls| - 1]) then polls[|polls| - 1]
    else LastPlaying(polls[..|polls| - 1])
  }

  /** How many polls of the run reported something playing. */
  function CountPlaying(polls: seq<Option<string>>): (count: nat)
    decreases |polls|
  {
    if polls == [] then 0 else (if Playing(polls[0]) then 1 else 0) + CountPlaying(polls[1..])
  }

  /** The last playing id of a run with one poll in front: the run's own, or
      else the front poll's when it reports something playing. */
  lemma {:induction false} LastPlayingCons(x: Option<string>, rest: seq<Option<string>>)
    ensures LastPlaying([x] + rest) ==
              if LastPlaying(rest).Some? then LastPlaying(rest)
              else if Playing(x) then x else None
    decreases |rest|
  {
    var s := [x] + rest;
    if rest != [] {
      assert s[|s| - 1] == rest[|rest| - 1];
      assert s[..|s| - 1] == [x] + rest[..|rest| - 1];
      LastPlayingCons(x, rest[..|rest| - 1]);
    } else {
      assert s[..|s| - 1] == [];
    }
  }

  /** The tracked id is the last id reported as playing, or the starting one
      when no poll reported anything playing. */
  lemma {:induction false} TrackedIsLastPlaying(current: Option<string>, polls: seq<Option<string>>)
    ensures TrackedAfter(current, polls) ==
              if LastPlaying(polls).Some? then LastPlaying(polls) else current
    decreases |polls|
  {
    if polls != [] {
      assert polls == [polls[0]] + polls[1..];
      LastPlayingCons(polls[0], polls[1..]);
      TrackedIsLastPlaying(NextTracked(current, polls[0]), polls[1..]);
    }
  }

  /** Reloads happen only on polls that report something playing, and a run
      reloads nothing exactly when every track it reports playing is the
      tracked one; the tracked id then stays as it was. */
  lemma {:induction false} ReloadsBounded(current: Option<string>, polls: seq<Option<string>>)
    ensures Reloads(current, polls) <= CountPlaying(polls)
    ensures Reloads(current, polls) == 0 <==>
              forall i :: 0 <= i < |polls| && Playing(polls[i]) ==> polls[i] == current
    ensures Reloads(current, polls) == 0 ==> TrackedAfter(current, polls) == current
    decreases |polls|
  {
    if polls != [] {
      var next := NextTracked(current, polls[0]);
      ReloadsBounded(next, polls[1..]);
      if forall i :: 0 <= i < |polls| && Playing(polls[i]) ==> polls[i] == current {
        assert next == current;
        forall i | 0 <= i < |polls[1..]| && Playing(polls[1..][i])
          ensures polls[1..][i] == current
        {
          assert polls[1..][i] == polls[i + 1];
        }
      } else if !ShouldReload(current, polls[0]) {
        assert next == current;
        var i :| 0 <= i < |polls| && Playing(polls[i]) && polls[i] != current;
        assert i > 0 && polls[1..][i - 1] == polls[i];
      }
    }
  }

  /** A track reported on several polls in a row, with gaps of nothing
      playing, is reloaded once: the id is recorded before the fragment is
      fetched, so a failed fetch is not retried. */
  lemma {:induction false} OneTrackReloadsOnce(current: Option<string>, t: string, polls: seq<Option<string>>)
    requires t != "" && current != Some(t) && |polls| > 0 && polls[0] == Some(t)
    requires forall i :: 0 <= i < |polls| ==> polls[i] == Some(t) || !Playing(polls[i])
    ensures Reloads(current, polls) == 1
    ensures TrackedAfter(current, polls) == Some(t)
  {
    var rest := polls[1..];
    assert NextTracked(current, polls[0]) == Some(t);
    forall i | 0 <= i < |rest| && Playing(rest[i])
      ensures rest[i] == Some(t)
    {
      assert rest[i] == polls[i + 1];
    }
    ReloadsBounded(Some(t), rest);
  }

  // ---- progress text ----------------------------------------------------

  /** `Math.floor(ms / 1000)`: whole seconds, rounded down also for negative values. */
  function Seconds(ms: int): (s: int)
    ensures s * 1000 <= ms < s * 1000 + 1000
  {
    ms / 1000
  }

  predicate IsDigit(c: char) {
    '0' <= c <= '9'
  }

  function DigitChar(d: int): (c: char)
    requires 0 <= d < 10
    ensures IsDigit(c) && c as int - '0' as int == d
  {
    ('0' as int + d) as char
  }

  /** The decimal digits of a natural number, most significant first. */
  function NatDigits(n: nat): (s: string)
    ensures |s| > 0 && forall i :: 0 <= i < |s| ==> IsDigit(s[i])
  {
    if n < 10 then [DigitChar(n)] else NatDigits(n / 10) + [DigitChar(n % 10)]
  }

  /** How a JavaScript integer is written in a template literal. */
  function Decimal(n: int): (s: string)
    ensures ' ' !in s
  {
    if n < 0 then "-" + NatDigits(-n) else NatDigits(n)
  }

  predicate AllDigits(s: string) {
    forall i :: 0 <= i < |s| ==> IsDigit(s[i])
  }

  /** The value of a run of decimal digits. */
  function DigitsValue(s: string): (value: nat)
    requires AllDigits(s)
    decreases |s|
  {
    if s == [] then 0 else DigitsValue(s[..|s| - 1]) * 10 + (s[|s| - 1] as int - '0' as int)
  }

  /** Reads back an optionally signed decimal number. */
  function ParseDecimal(s: string): (n: Option<int>) {
    if |s| > 1 && s[0] == '-' && AllDigits(s[1..]) then Some(-(DigitsValue(s[1..]) as int))
    else if |s| > 0 && AllDigits(s) then Some(DigitsValue(s))
    else None
  }

  lemma {:induction false} NatDigitsRoundTrip(n: nat)
    ensures DigitsValue(NatDigits(n)) == n
  {
    if n >= 10 {
      var s := NatDigits(n);
      assert s[..|s| - 1] == NatDigits(n / 10);
      NatDigitsRoundTrip(n / 10);
    }
  }

  lemma DecimalRoundTrip(n: int)
    ensures ParseDecimal(Decimal(n)) == Some(n)
  {
    var s := Decimal(n);
    if n < 0 {
      assert s[1..] == NatDigits(-n);
      NatDigitsRoundTrip(-n);
    } else {
      NatDigitsRoundTrip(n);
    }
  }

  const SecondsOf: string := " seconds of "

  /** The text written into the progress element. */
  function ProgressText(progressMs: int, durationMs: int): (text: string) {
    Decimal(Seconds(progressMs)) + SecondsOf + Decimal(Seconds(durationMs))
  }

  /** Two space-free prefixes followed by the same separator split a text in
      the same place. */
  lemma SplitAtFirstSpace(x: string, y: string, x': string, y': string)
    requires ' ' !in x && ' ' !in x'
    requires x + SecondsOf + y == x' + SecondsOf + y'
    ensures x == x' && y == y'
  {
    var s := x + SecondsOf + y;
    // each prefix ends at the first space of the text
    assert s[|x|] == ' ' && forall k :: 0 <= k < |x| ==> s[k] == x[k];
    assert s[|x'|] == ' ' && forall k :: 0 <= k < |x'| ==> s[k] == x'[k];
    assert |x| == |x'|;
    assert x == s[..|x|];
    assert x' == s[..|x'|];
    assert y == s[|x| + |SecondsOf|..];
    assert y' == s[|x'| + |SecondsOf|..];
  }

  /** The progress text determines the whole seconds elapsed and in total. */
  lemma ProgressTextDetermines(p: int, d: int, p': int, d': int)
    requires ProgressText(p, d) == ProgressText(p', d')
    ensures Seconds(p) == Seconds(p') && Seconds(d) == Seconds(d')
  {
    SplitAtFirstSpace(Decimal(Seconds(p)), Decimal(Seconds(d)), Decimal(Seconds(p')), Decimal(Seconds(d')));
    DecimalRoundTrip(Seconds(p));
    DecimalRoundTrip(Seconds(p'));
    DecimalRoundTrip(Seconds(d));
    DecimalRoundTrip(Seconds(d'));
  }

  // ---- the page script --------------------------------------------------

  /** The script's state: `currentTrackId` and the two page elements it writes. */
  class Poller {
    var currentTrackId: Option<string>
    var progressText: string
    var trackInfoHtml: string

    /** Page load: no track is tracked yet. */
    constructor (progressText: string, trackInfoHtml: string)
      ensures currentTrackId == None
      ensures this.progressText == progressText && this.trackInfoHtml == trackInfoHtml
    {
      currentTrackId := None;
      this.progressText := progressText;
      this.trackInfoHtml := trackInfoHtml;
    }

    /** `updateProgressBar`. */
    method UpdateProgressBar(progressMs: int, durationMs: int)
      modifies this
      ensures progressText == ProgressText(progressMs, durationMs)
      ensures currentTrackId == old(currentTrackId) && trackInfoHtml == old(trackInfoHtml)
    {
      var secondsPassed := Seconds(progressMs);
      var secondsTotal := Seconds(durationMs);
      progressText := Decimal(secondsPassed) + SecondsOf + Decimal(secondsTotal);
    }

    /** `refreshTrackInfo`; `fragment` is the fetched HTML, `None` when the fetch fails. */
    method RefreshTrackInfo(fragment: Option<string>)
      modifies this
      ensures trackInfoHtml == fragment.GetOr(old(trackInfoHtml))
      ensures currentTrackId == old(currentTrackId) && progressText == old(progressText)
    {
      if fragment.Some? {
        trackInfoHtml := fragment.value;
      }
    }

    /** `updateNowPlaying`: one poll. `response` is the progress body, `None`
        when the request or its decoding fails; `fragment` is what the
        track-info fetch would yield. */
    method UpdateNowPlaying(response: Option<ProgressData>, fragment: Option<string>)
      returns (reloaded: bool)
      modifies this
      ensures response.None? ==>
                !reloaded && currentTrackId == old(currentTrackId)
                && progressText == old(progressText) && trackInfoHtml == old(trackInfoHtml)
      ensures response.Some? ==>
                progressText == ProgressText(response.value.progressMs, response.value.durationMs)
      ensures reloaded <==> response.Some? && ShouldReload(old(currentTrackId), response.value.trackId)
      ensures currentTrackId == if response.Some? then NextTracked(old(currentTrackId), response.value.trackId)
                                else old(currentTrackId)
      ensures trackInfoHtml == if reloaded then fragment.GetOr(old(trackInfoHtml)) else old(trackInfoHtml)
    {
      reloaded := false;
      if response.None? {
        return;
      }
      var data := response.value;
      UpdateProgressBar(data.progressMs, data.durationMs);
      if Playing(data.trackId) && data.trackId != currentTrackId {
        currentTrackId := data.trackId;
        reloaded := true;
        RefreshTrackInfo(fragment);
      }
    }
  }
}
