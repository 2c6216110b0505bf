/**
 * `PlayerFragment`: how the player screen shows the view model's state, and its
 * `"%02d:%02d"` time format.
 */
module PlayerScreen {
  import opened Wrappers
  import opened Numbers
  import opened Media
  import ViewModel
  import Adapters

  /** `formatDuration`: whole seconds split into minutes (not capped at 59) and
      seconds, with Kotlin's truncating Long arithmetic, printed as `"%02d:%02d"`. */
  function FormatDuration(durationMs: int): string {
    var totalSeconds := TDiv(durationMs, 1000);
    var minutes := TDiv(totalSeconds, 60);
    var remainingSeconds := TRem(totalSeconds, 60);
    Pad2(minutes) + ":" + Pad2(remainingSeconds)
  }

  /** For a non-negative time the fields are the whole minutes and the remaining
      seconds. */
  lemma FormatDurationFields(durationMs: int)
    requires durationMs >= 0
    ensures var t := durationMs / 1000;
      FormatDuration(durationMs) == Pad2(t / 60) + ":" + Pad2(t % 60)
  {
    var t := durationMs / 1000;
    assert TDiv(durationMs, 1000) == t;
    assert TDiv(t, 60) == t / 60 && TRem(t, 60) == t % 60;
  }

  /** For a non-negative time both fields have at least two digits and the
      seconds exactly two. */
  lemma FormatDurationShape(durationMs: int)
    requires durationMs >= 0
    ensures var r := FormatDuration(durationMs);
      |r| >= 5 && r[|r| - 3] == ':' && r[..|r| - 3] == Pad2(durationMs / 1000 / 60)
  {
    var t := durationMs / 1000;
    FormatDurationFields(durationMs);
    Pad2Small(t % 60);
    var r := FormatDuration(durationMs);
    assert r[..|r| - 3] == Pad2(t / 60);
  }

  /** Reading the text of a non-negative time back as mm:ss gives its whole seconds. */
  lemma FormatDurationReadsBack(durationMs: int)
    requires durationMs >= 0
    ensures ParseClock(FormatDuration(durationMs)) == Some(durationMs / 1000)
  {
    var t := durationMs / 1000;
    var m, sec := t / 60, t % 60;
    FormatDurationFields(durationMs);
    ReadBackPaddedClock(m, sec);
    assert m * 60 + sec == t;
  }

  /** The player's format and the song list's differ only by the leading zero the
      player puts before a single-digit minute. */
  lemma FormatsAgreeAfterTenMinutes(durationMs: int)
    requires durationMs >= 0
    ensures FormatDuration(durationMs) ==
      (if durationMs / 1000 / 60 < 10 then "0" else "") + Adapters.FormatDuration(durationMs)
  {
    var t := durationMs / 1000;
    var m := t / 60;
    FormatDurationFields(durationMs);
    Adapters.FormatDurationFields(durationMs);
    Pad2AsDigits(m);
    PrefixedClock(if m < 10 then "0" else "", Digits(m), Pad2(m), Pad2(t % 60));
  }

  lemma PrefixedClock(zero: string, minutes: string, padded: string, seconds: string)
    requires padded == zero + minutes
    ensures padded + ":" + seconds == zero + (minutes + ":" + seconds)
  {
  }

  /** Minutes are not capped: the field before the colon reads back as the whole
      number of minutes, however many (an hour shows as 60). */
  lemma MinutesAreNotCapped(durationMs: int)
    requires durationMs >= 0
    ensures var r := FormatDuration(durationMs);
      |r| >= 5 && AllDigits(r[..|r| - 3]) && DigitsValue(r[..|r| - 3]) == durationMs / 1000 / 60
  {
    FormatDurationShape(durationMs);
    Pad2Value(durationMs / 1000 / 60);
  }

  /** What the player screen shows; alpha values in hundredths. */
  datatype Screen = Screen(
    title: string,
    artist: string,
    playPauseSelected: bool,
    seekProgress: int,
    currentTimeText: string,
    seekMax: int,
    totalTimeText: string,
    shuffleSelected: bool,
    shuffleAlpha: int,
    repeatSelected: bool,
    repeatAlpha: int)

  /** The title line: the song's title, or a placeholder. */
  function TitleText(song: Option<AudioFile>): string {
    if song.Some? then song.value.title else "No song playing"
  }

  /** The artist line: the song's artist, or a placeholder. */
  function ArtistText(song: Option<AudioFile>): string {
    if song.Some? then song.value.artist else "Unknown Artist"
  }

  /** The repeat button's alpha: full for ONE, 0.85 for ALL, 0.7 otherwise. */
  function RepeatAlpha(mode: int): int {
    if mode == ViewModel.REPEAT_ONE then 100
    else if mode == ViewModel.REPEAT_ALL then 85
    else 70
  }

  /** The collectors of `observeViewModel`, applied to one state of the view model. */
  function Render(m: ViewModel.Mirror): Screen {
    Screen(
      title := TitleText(m.currentSong),
      artist := ArtistText(m.currentSong),
      playPauseSelected := m.isPlaying,
      seekProgress := ToInt32(m.currentPosition),
      currentTimeText := FormatDuration(m.currentPosition),
      seekMax := ToInt32(m.duration),
      totalTimeText := FormatDuration(m.duration),
      shuffleSelected := m.isShuffleEnabled,
      shuffleAlpha := if m.isShuffleEnabled then 100 else 70,
      repeatSelected := m.repeatMode != ViewModel.REPEAT_OFF,
      repeatAlpha := RepeatAlpha(m.repeatMode))
  }

  /** With no current song the screen shows the two placeholders; with one, its own
      title and artist. */
  lemma SongTextFallbacks(m: ViewModel.Mirror)
    ensures m.currentSong.None? ==>
      Render(m).title == "No song playing" && Render(m).artist == "Unknown Artist"
    ensures m.currentSong.Some? ==>
      Render(m).title == m.currentSong.value.title && Render(m).artist == m.currentSong.value.artist
  {
  }

  /** The three buttons follow the state: play/pause iff playing, shuffle iff on,
      repeat iff any repeat mode; the repeat button's alpha tells the three valid
      modes apart. */
  lemma ButtonsFollowState(m: ViewModel.Mirror, m2: ViewModel.Mirror)
    ensures Render(m).playPauseSelected <==> m.isPlaying
    ensures Render(m).shuffleSelected <==> m.isShuffleEnabled
    ensures Render(m).repeatSelected <==> m.repeatMode != ViewModel.REPEAT_OFF
    ensures ViewModel.ValidRepeatMode(m.repeatMode) && ViewModel.ValidRepeatMode(m2.repeatMode)
      ==> (Render(m).repeatAlpha == Render(m2).repeatAlpha <==> m.repeatMode == m2.repeatMode)
  {
  }

  /** After a press of the repeat button it is still selected unless the mode was ONE. */
  lemma RepeatButtonAfterToggle(m: ViewModel.Mirror)
    requires ViewModel.ValidRepeatMode(m.repeatMode)
    ensures Render(m.(repeatMode := ViewModel.NextRepeatMode(m.repeatMode))).repeatSelected
      <==> m.repeatMode != ViewModel.REPEAT_ONE
  {
  }

  /** The seek bar: within Int range the thumb lies on the bar and the times read
      back as whole seconds; beyond it `toInt()` wraps. */
  lemma SeekBarFits(m: ViewModel.Mirror)
    requires 0 <= m.currentPosition <= m.duration <= INT_MAX
    ensures 0 <= Render(m).seekProgress <= Render(m).seekMax
    ensures ParseClock(Render(m).currentTimeText) == Some(m.currentPosition / 1000)
    ensures ParseClock(Render(m).totalTimeText) == Some(m.duration / 1000)
  {
    FormatDurationReadsBack(m.currentPosition);
    FormatDurationReadsBack(m.duration);
  }

  lemma SeekBarWrapsBeyondInt(m: ViewModel.Mirror)
    requires m.duration == INT_MAX + 1
    ensures Render(m).seekMax == INT_MIN
  {
    assert ToInt32(INT_MAX + 1) == INT_MIN;
  }
}
