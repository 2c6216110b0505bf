/**
 * The UI-side mirror of the playback service: observable fields that copy the
 * service's state, and commands that act locally and forward to the service
 * when one is bound (`mediaPlayerService?.…`).
 *
 * Coroutines are flattened: each `viewModelScope.launch` body runs to the end
 * at once, the `delay` before the duration is read becomes a parameter that
 * says what the engine reported then, and the 1 Hz polling loop runs over a
 * finite sequence of samples.
 */
module ViewModel {
  import opened Wrappers
  import opened Media
  import PlayerService

  const REPEAT_OFF := PlayerService.REPEAT_OFF
  const REPEAT_ONE := PlayerService.REPEAT_ONE
  const REPEAT_ALL := PlayerService.REPEAT_ALL

  predicate ValidRepeatMode(m: int) { m == REPEAT_OFF || m == REPEAT_ONE || m == REPEAT_ALL }

  /** The `when` of `toggleRepeatMode`: OFF -> ALL -> ONE -> OFF; any other value -> OFF. */
  function NextRepeatMode(m: int): (r: int)
    ensures ValidRepeatMode(r)
    ensures !ValidRepeatMode(m) ==> r == REPEAT_OFF
    ensures ValidRepeatMode(m) ==> r != m
  {
    if m == REPEAT_OFF then REPEAT_ALL
    else if m == REPEAT_ALL then REPEAT_ONE
    else REPEAT_OFF
  }

  /** Three presses of the repeat button from a valid mode come back to it, and pass
      through each of the three modes once on the way. */
  lemma RepeatCycle(m: int)
    requires ValidRepeatMode(m)
    ensures NextRepeatMode(NextRepeatMode(NextRepeatMode(m))) == m
    ensures {m, NextRepeatMode(m), NextRepeatMode(NextRepeatMode(m))} == {REPEAT_OFF, REPEAT_ONE, REPEAT_ALL}
  {
  }

  /** One tick of the polling loop: what the service returned for position and
      duration (`None` when its engine is gone). */
  datatype Sample = Sample(position: Option<int>, duration: Option<int>)

  /** The position after the ticks: the last one reported, else the start value. */
  function PolledPosition(start: int, ticks: seq<Sample>): (r: int)
    ensures r == start || exists i :: 0 <= i < |ticks| && ticks[i].position == Some(r)
    ensures |ticks| > 0 && ticks[|ticks| - 1].position.Some? ==> r == ticks[|ticks| - 1].position.value
  {
    if ticks == [] then start
    else
      var last := ticks[|ticks| - 1];
      if last.position.Some? then last.position.value
      else PolledPosition(start, ticks[..|ticks| - 1])
  }

  /** The duration after the ticks: the last strictly positive one reported, else the start value. */
  function PolledDuration(start: int, ticks: seq<Sample>): (r: int)
    ensures r == start || (r > 0 && exists i :: 0 <= i < |ticks| && ticks[i].duration == Some(r))
  {
    if ticks == [] then start
    else
      var last := ticks[|ticks| - 1];
      if last.duration.Some? && last.duration.value > 0 then last.duration.value
      else PolledDuration(start, ticks[..|ticks| - 1])
  }

  /** Polling never replaces a known (positive) duration by an unknown one. */
  lemma {:induction false} PolledDurationStaysPositive(start: int, ticks: seq<Sample>)
    requires start > 0
    ensures PolledDuration(start, ticks) > 0
  {
    if ticks != [] {
      PolledDurationStaysPositive(start, ticks[..|ticks| - 1]);
    }
  }

  /** Ticks that report no positive duration leave the duration as it was. */
  lemma {:induction false} PolledDurationIgnoresNonPositive(start: int, ticks: seq<Sample>)
    requires forall i :: 0 <= i < |ticks| ==> ticks[i].duration.None? || ticks[i].duration.value <= 0
    ensures PolledDuration(start, ticks) == start
  {
    if ticks != [] {
      PolledDurationIgnoresNonPositive(start, ticks[..|ticks| - 1]);
    }
  }

  /** The observable fields, as one value. */
  datatype Mirror = Mirror(
    currentSong: Option<AudioFile>,
    isPlaying: bool,
    currentPosition: int,
    duration: int,
    queue: seq<AudioFile>,
    currentSongPosition: int,
    isShuffleEnabled: bool,
    repeatMode: int)

  /** The mirror update of `toggleShuffle`. */
  function ToggleShuffleOf(m: Mirror): (r: Mirror)
    ensures r.isShuffleEnabled != m.isShuffleEnabled
    ensures r.(isShuffleEnabled := m.isShuffleEnabled) == m
  {
    m.(isShuffleEnabled := !m.isShuffleEnabled)
  }

  /** Toggling shuffle twice gives back the mirror it started from. */
  lemma ToggleShuffleTwice(m: Mirror)
    ensures ToggleShuffleOf(ToggleShuffleOf(m)) == m
  {
  }

  class PlayerViewModel {
    var currentSong: Option<AudioFile>
    var isPlaying: bool
    var currentPosition: int
    var duration: int
    var queue: seq<AudioFile>
    var currentSongPosition: int
    var isShuffleEnabled: bool
    var repeatMode: int
    var service: PlayerService.MediaPlayerService?
    var bound: bool

    function State(): Mirror
      reads this
    {
      Mirror(currentSong, isPlaying, currentPosition, duration, queue,
             currentSongPosition, isShuffleEnabled, repeatMode)
    }

    /** A fresh view model: nothing playing, nothing bound yet (binding is asynchronous). */
    constructor ()
      ensures State() == Mirror(None, false, 0, 0, [], -1, false, REPEAT_OFF)
      ensures service == null && !bound
    {
      currentSong := None;
      isPlaying := false;
      currentPosition := 0;
      duration := 0;
      queue := [];
      currentSongPosition := -1;
      isShuffleEnabled := false;
      repeatMode := REPEAT_OFF;
      service := null;
      bound := false;
    }

    /**
     * `onServiceConnected`: copies the service's state, then registers the two
     * listeners, each of which the service invokes at once with its current
     * value. `reportedDuration` is what `getDuration()` returns meanwhile.
     */
    method OnServiceConnected(svc: PlayerService.MediaPlayerService, reportedDuration: Option<int>)
      modifies this
      ensures service == svc && bound
      ensures State() == Mirror(svc.currentSong, svc.isPlaying, 0, reportedDuration.GetOr(0),
                                svc.queue, svc.currentSongPosition, svc.isShuffleEnabled, svc.repeatMode)
    {
      service := svc;
      bound := true;
      UpdatePlayerState(svc, reportedDuration);
      OnPlaybackStateChanged(svc.isPlaying);
      OnSongChanged(svc.currentSong, reportedDuration);
    }

    method OnServiceDisconnected()
      modifies this
      ensures service == null && !bound && State() == old(State())
    {
      service := null;
      bound := false;
    }

    method UpdatePlayerState(svc: PlayerService.MediaPlayerService, reportedDuration: Option<int>)
      modifies this
      ensures service == old(service) && bound == old(bound)
      ensures State() == Mirror(svc.GetCurrentSong(), svc.isPlaying, svc.GetCurrentPosition(),
                                reportedDuration.GetOr(0), svc.GetQueue(), svc.currentSongPosition,
                                svc.isShuffleEnabled, svc.repeatMode)
    {
      currentSong := svc.GetCurrentSong();
      isPlaying := svc.isPlaying;
      currentPosition := svc.GetCurrentPosition();
      duration := reportedDuration.GetOr(0);
      queue := svc.GetQueue();
      currentSongPosition := svc.currentSongPosition;
      isShuffleEnabled := svc.isShuffleEnabled;
      repeatMode := svc.repeatMode;
    }

    /** The playback-state listener. */
    method OnPlaybackStateChanged(playing: bool)
      modifies this
      ensures service == old(service) && bound == old(bound)
      ensures State() == old(State()).(isPlaying := playing)
    {
      isPlaying := playing;
    }

    /** The song-change listener: the duration is taken as reported, or 0. */
    method OnSongChanged(song: Option<AudioFile>, reportedDuration: Option<int>)
      modifies this
      ensures service == old(service) && bound == old(bound)
      ensures State() == old(State()).(currentSong := song, duration := reportedDuration.GetOr(0),
                                       currentPosition := 0)
    {
      currentSong := song;
      duration := reportedDuration.GetOr(0);
      currentPosition := 0;
    }

    /**
     * `playSong`: acts only on an index of the mirrored queue. The service's
     * `playSong` fires the song-change listener when the index is in the
     * service's own queue (`durationAtStart` is then the engine's duration);
     * after the delay only a positive `durationAfterDelay` is taken, and only from a
     * bound service (without one the duration query is null).
     */
    method PlaySong(position: int, startPosition: int,
                    durationAtStart: Option<int>, durationAfterDelay: Option<int>)
      modifies this, service
      ensures service == old(service) && bound == old(bound)
      ensures !(0 <= position < |old(queue)|) ==> State() == old(State())
      ensures !(0 <= position < |old(queue)|) && service != null ==>
        service.State() == old(service.State())
      ensures 0 <= position < |old(queue)| ==>
        currentSongPosition == position && currentSong == Some(old(queue)[position]) && isPlaying &&
        queue == old(queue) && isShuffleEnabled == old(isShuffleEnabled) && repeatMode == old(repeatMode)
      ensures 0 <= position < |old(queue)| && service != null ==>
        service.State() == PlayerService.PlaySongStep(old(service.State()), position, startPosition, true)
      ensures 0 <= position < |old(queue)| ==>
        var notified := service != null && 0 <= position < |old(service.queue)|;
        currentPosition == (if notified then 0 else old(currentPosition)) &&
        duration == (if service != null && durationAfterDelay.Some? && durationAfterDelay.value > 0
                     then durationAfterDelay.value
                     else if notified then durationAtStart.GetOr(0)
                     else old(duration))
    {
      if 0 <= position < |queue| {
        var svc := service;
        if svc != null {
          var accepted := 0 <= position < |svc.queue|;
          svc.PlaySong(position, startPosition, true);
          if accepted {
            OnSongChanged(svc.currentSong, durationAtStart);
            OnPlaybackStateChanged(svc.isPlaying);
          }
        }
        currentSongPosition := position;
        currentSong := Some(queue[position]);
        isPlaying := true;
        if svc != null && durationAfterDelay.Some? && durationAfterDelay.value > 0 {
          duration := durationAfterDelay.value;
        }
      }
    }

    /** The polling loop of `startPositionUpdates`, one iteration per sample. */
    method PollPositionUpdates(ticks: seq<Sample>)
      modifies this
      ensures service == old(service) && bound == old(bound)
      ensures service == null ==> State() == old(State())
      ensures service != null ==>
        State() == old(State()).(currentPosition := PolledPosition(old(currentPosition), ticks),
                                 duration := PolledDuration(old(duration), ticks))
    {
      var i := 0;
      while i < |ticks|
        invariant 0 <= i <= |ticks|
        invariant service == old(service) && bound == old(bound)
        invariant service == null ==> State() == old(State())
        invariant service != null ==>
          State() == old(State()).(currentPosition := PolledPosition(old(currentPosition), ticks[..i]),
                                   duration := PolledDuration(old(duration), ticks[..i]))
      {
        assert ticks[..i + 1][..i] == ticks[..i];
        if service != null {
          if ticks[i].position.Some? {
            currentPosition := ticks[i].position.value;
          }
          if ticks[i].duration.Some? && ticks[i].duration.value > 0 {
            duration := ticks[i].duration.value;
          }
        }
        i := i + 1;
      }
      assert ticks[..i] == ticks;
    }

    /** `playPause`: flips the flag, pausing the service when it was playing and playing it otherwise. */
    method PlayPause()
      modifies this, service
      ensures service == old(service) && bound == old(bound)
      ensures State() == old(State()).(isPlaying := !old(isPlaying))
      ensures service != null ==>
        service.State() == old(service.State()).(playing := !old(isPlaying))
    {
      if isPlaying {
        if service != null { service.Pause(); }
        isPlaying := false;
      } else {
        if service != null { service.Play(); }
        isPlaying := true;
      }
    }

    method SeekTo(p: int)
      modifies this, service
      ensures service == old(service) && bound == old(bound)
      ensures State() == old(State()).(currentPosition := p)
      ensures service != null ==> service.State() == old(service.State()).(position := p)
    {
      if service != null { service.SeekTo(p); }
      currentPosition := p;
    }

    /** `updateCurrentSongInfo`: re-reads everything but the queue from the service. */
    method UpdateCurrentSongInfo(reportedDuration: Option<int>)
      modifies this
      ensures service == old(service) && bound == old(bound)
      ensures service == null ==> State() == old(State())
      ensures service != null ==>
        State() == Mirror(service.GetCurrentSong(), service.isPlaying, service.GetCurrentPosition(),
                          reportedDuration.GetOr(0), old(queue), service.currentSongPosition,
                          service.isShuffleEnabled, service.repeatMode)
    {
      if service != null {
        currentSong := service.GetCurrentSong();
        currentPosition := service.GetCurrentPosition();
        duration := reportedDuration.GetOr(0);
        isPlaying := service.isPlaying;
        currentSongPosition := service.currentSongPosition;
        isShuffleEnabled := service.isShuffleEnabled;
        repeatMode := service.repeatMode;
      }
    }

    /** `next`: the service skips, then the mirror re-reads it. */
    method Next(random: int, reportedDuration: Option<int>)
      requires service != null ==> PlayerService.RandomFits(service.State(), random)
      modifies this, service
      ensures service == old(service) && bound == old(bound)
      ensures service == null ==> State() == old(State())
      ensures service != null ==>
        service.State() == PlayerService.NextStep(old(service.State()), random) &&
        State() == Mirror(service.GetCurrentSong(), service.isPlaying, service.GetCurrentPosition(),
                          reportedDuration.GetOr(0), old(queue), service.currentSongPosition,
                          service.isShuffleEnabled, service.repeatMode)
    {
      if service != null {
        service.SkipToNext(random);
      }
      UpdateCurrentSongInfo(reportedDuration);
    }

    /** `previous`: the service skips back, then the mirror re-reads it. */
    method Previous(reportedDuration: Option<int>)
      modifies this, service
      ensures service == old(service) && bound == old(bound)
      ensures service == null ==> State() == old(State())
      ensures service != null ==>
        service.State() == PlayerService.PreviousStep(old(service.State())) &&
        State() == Mirror(service.GetCurrentSong(), service.isPlaying, service.GetCurrentPosition(),
                          reportedDuration.GetOr(0), old(queue), service.currentSongPosition,
                          service.isShuffleEnabled, service.repeatMode)
    {
      if service != null {
        service.SkipToPrevious();
      }
      UpdateCurrentSongInfo(reportedDuration);
    }

    /** `toggleShuffle`: negates the flag and forwards the new value. */
    method ToggleShuffle()
      modifies this, service
      ensures service == old(service) && bound == old(bound)
      ensures State() == ToggleShuffleOf(old(State()))
      ensures service != null ==>
        service.State() == old(service.State()).(shuffle := isShuffleEnabled)
    {
      isShuffleEnabled := !isShuffleEnabled;
      if service != null { service.SetShuffleEnabled(isShuffleEnabled); }
    }

    /** `toggleRepeatMode`: moves the mode one step round the cycle and forwards it. */
    method ToggleRepeatMode()
      modifies this, service
      ensures service == old(service) && bound == old(bound)
      ensures State() == old(State()).(repeatMode := NextRepeatMode(old(repeatMode)))
      ensures service != null ==>
        service.State() == old(service.State()).(repeat := repeatMode)
    {
      repeatMode := NextRepeatMode(repeatMode);
      if service != null { service.SetRepeatMode(repeatMode); }
    }

    /** `setQueue`: replaces the mirrored queue wholesale and forwards it. */
    method SetQueue(songs: seq<AudioFile>)
      modifies this, service
      ensures service == old(service) && bound == old(bound)
      ensures State() == old(State()).(queue := songs)
      ensures service != null ==> service.State() == old(service.State()).(queue := songs)
    {
      queue := songs;
      if service != null { service.SetQueue(songs); }
    }
  }
}
