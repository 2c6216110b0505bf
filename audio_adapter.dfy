/**
 * `AudioAdapter`: a RecyclerView adapter over a list of songs; each row shows
 * the title, the artist and the duration as `"%d:%02d"`.
 */
module Adapters {
  import opened Wrappers
  import opened Numbers
  import opened Media

  /** `formatDuration`: `duration / 1000 / 60` and `duration / 1000 % 60` with
      Kotlin's truncating Long arithmetic, printed as `"%d:%02d"`. */
  function FormatDuration(duration: int): string {
    var minutes := TDiv(TDiv(duration, 1000), 60);
    var seconds := TRem(TDiv(duration, 1000), 60);
    IntToString(minutes) + ":" + Pad2(seconds)
  }

  /** For a non-negative duration the fields are the whole minutes and the
      remaining seconds. */
  lemma FormatDurationFields(duration: int)
    requires duration >= 0
    ensures var t := duration / 1000;
      FormatDuration(duration) == Digits(t / 60) + ":" + Pad2(t % 60)
  {
    var t := duration / 1000;
    assert TDiv(duration, 1000) == t;
    assert TDiv(t, 60) == t / 60 && TRem(t, 60) == t % 60;
  }

  /** For a non-negative duration the text is the minutes, a colon and exactly
      two digits of seconds. */
  lemma FormatDurationShape(duration: int)
    requires duration >= 0
    ensures var r := FormatDuration(duration);
      |r| >= 4 && r[|r| - 3] == ':' && r[..|r| - 3] == Digits(duration / 1000 / 60)
  {
    var t := duration / 1000;
    FormatDurationFields(duration);
    Pad2Small(t % 60);
  }

  /** Reading the text of a non-negative duration back as m:ss gives its whole
      seconds (so the seconds field lies in 0..59 and minutes * 60 + seconds is
      `duration / 1000`). */
  lemma FormatDurationReadsBack(duration: int)
    requires duration >= 0
    ensures ParseClock(FormatDuration(duration)) == Some(duration / 1000)
  {
    var t := duration / 1000;
    var m, sec := t / 60, t % 60;
    FormatDurationFields(duration);
    ReadBackClock(m, sec);
    assert m * 60 + sec == t;
  }

  /** Negative durations are not clamped: the truncating division puts a minus
      sign on both fields. */
  lemma FormatDurationNegative()
    ensures FormatDuration(-61000) == "-1:-1"
    ensures FormatDuration(-999) == "0:00"
  {
    assert TDiv(-61000, 1000) == -61;
    assert TDiv(-61, 60) == -1 && TRem(-61, 60) == -1;
    assert IntToString(-1) == "-" + Digits(1);
    assert TDiv(-999, 1000) == 0;
  }

  /** What one row shows, and what a click on it passes on. */
  datatype Row = Row(title: string, artist: string, durationText: string, clickItem: AudioFile)

  /** `onBindViewHolder` for the song at a row. */
  function RowOf(audio: AudioFile): (r: Row)
    ensures r.clickItem == audio && r.title == audio.title && r.artist == audio.artist
  {
    Row(audio.title, audio.artist, FormatDuration(audio.duration), audio)
  }

  /** A row's duration text reads back as the song's whole seconds. */
  lemma RowShowsDuration(audio: AudioFile)
    requires audio.duration >= 0
    ensures ParseClock(RowOf(audio).durationText) == Some(audio.duration / 1000)
  {
    FormatDurationReadsBack(audio.duration);
  }

  class AudioAdapter {
    var audioFiles: seq<AudioFile>

    constructor (files: seq<AudioFile>)
      ensures audioFiles == files
    {
      audioFiles := files;
    }

    /** `getItemCount`. */
    function GetItemCount(): (n: nat)
      reads this
      ensures n == |audioFiles|
    {
      |audioFiles|
    }

    /** `updateData`: the list is replaced as a whole. */
    method UpdateData(newAudioFiles: seq<AudioFile>)
      modifies this
      ensures audioFiles == newAudioFiles
      ensures GetItemCount() == |newAudioFiles|
    {
      audioFiles := newAudioFiles;
    }

    /** `onBindViewHolder(holder, position)`; RecyclerView binds only rows it counted. */
    function BindRow(position: int): (r: Row)
      reads this
      requires 0 <= position < GetItemCount()
      ensures r == RowOf(audioFiles[position])
      ensures r.clickItem == audioFiles[position]
    {
      RowOf(audioFiles[position])
    }
  }
}
