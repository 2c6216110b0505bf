/**
 * The older playback service built on `MediaPlayer`. It keeps its own index
 * rules: the start index is clamped, non-shuffle "next" always wraps modulo
 * the playlist size, shuffle draws any index (the current one included), and
 * on completion NONE stops after the last track. It also keeps a list of
 * playback-state listeners.
 *
 * The engine is reduced to a playing flag and a position; `Random().nextInt(n)`
 * is the parameter `random`, required to lie in `0 until n` when it is drawn.
 * Listeners are lambdas compared by reference, so here they are opaque ids, and
 * invoking one appends its id to the log `invoked`.
 */
module LegacyService {
  import opened Wrappers
  import opened Media

  datatype RepeatMode = NONE | ONE | ALL

  type ListenerId = nat

  /** Kotlin `coerceIn(lo, hi)`, which throws `IllegalArgumentException` when lo > hi. */
  function CoerceIn(x: int, lo: int, hi: int): (r: int)
    requires lo <= hi
    ensures lo <= r <= hi
    ensures lo <= x <= hi ==> r == x
    ensures x < lo ==> r == lo
    ensures x > hi ==> r == hi
  {
    if x < lo then lo else if x > hi then hi else x
  }

  /** `MutableList.remove(x)`: drops the first occurrence of x, if any. */
  function RemoveFirst(s: seq<ListenerId>, x: ListenerId): seq<ListenerId> {
    if s == [] then []
    else if s[0] == x then s[1..]
    else [s[0]] + RemoveFirst(s[1..], x)
  }

  /** Where `remove` finds x: the index of its first occurrence. */
  function FirstIndex(s: seq<ListenerId>, x: ListenerId): (i: nat)
    requires x in s
    ensures i < |s| && s[i] == x && x !in s[..i]
  {
    if s[0] == x then 0
    else
      var k := FirstIndex(s[1..], x);
      assert s[..k + 1] == [s[0]] + s[1..][..k];
      k + 1
  }

  lemma {:induction false} RemoveFirstAbsent(s: seq<ListenerId>, x: ListenerId)
    requires x !in s
    ensures RemoveFirst(s, x) == s
  {
    if s != [] {
      RemoveFirstAbsent(s[1..], x);
      assert s == [s[0]] + s[1..];
    }
  }

  /** `remove` cuts out exactly the first occurrence and keeps the rest in order. */
  lemma {:induction false} RemoveFirstCutsFirst(s: seq<ListenerId>, x: ListenerId)
    requires x in s
    ensures RemoveFirst(s, x) == s[..FirstIndex(s, x)] + s[FirstIndex(s, x) + 1..]
  {
    if s[0] != x {
      var i := FirstIndex(s, x);
      RemoveFirstCutsFirst(s[1..], x);
      assert FirstIndex(s[1..], x) == i - 1;
      assert s[..i] == [s[0]] + s[1..][..i - 1];
      assert s[i + 1..] == s[1..][i..];
    }
  }

  /** `remove` takes away one occurrence of x and nothing else. */
  lemma RemoveFirstRemovesOne(s: seq<ListenerId>, x: ListenerId)
    requires x in s
    ensures multiset(RemoveFirst(s, x)) == multiset(s) - multiset{x}
  {
    var i := FirstIndex(s, x);
    RemoveFirstCutsFirst(s, x);
    var before, after := s[..i], s[i + 1..];
    assert s == before + ([x] + after) by {
      assert s[i..] == [x] + after;
      assert s == s[..i] + s[i..];
    }
    assert multiset(s) == multiset(before) + multiset{x} + multiset(after);
  }

  /** Registering a listener that was not registered, then removing it, restores the list. */
  lemma AddThenRemove(s: seq<ListenerId>, x: ListenerId)
    requires x !in s
    ensures RemoveFirst(s + [x], x) == s
  {
    RemoveFirstCutsFirst(s + [x], x);
    var i := FirstIndex(s + [x], x);
    assert (s + [x])[..|s|] == s;
    assert (s + [x])[..i] == s;
  }

  /** Everything the service holds, as one value. */
  datatype MusicState = MusicState(
    playlist: seq<AudioFile>,
    index: int,                    // currentIndex
    audio: Option<AudioFile>,      // currentAudio
    shuffle: bool,                 // isShuffleOn
    repeat: RepeatMode,
    playing: bool,                 // the MediaPlayer is playing
    position: int,
    listeners: seq<ListenerId>,
    invoked: seq<ListenerId>)

  /** The index is never negative, and lies in the playlist whenever it is non-empty. */
  predicate IndexValid(s: MusicState) {
    0 <= s.index && (|s.playlist| > 0 ==> s.index < |s.playlist|)
  }

  /** `playlist.isEmpty()` or the draw of `Random().nextInt(playlist.size)`. */
  predicate RandomFits(s: MusicState, random: int) {
    s.shuffle && |s.playlist| > 0 ==> 0 <= random < |s.playlist|
  }

  /** `notifyPlaybackStateChanged`: every listener, in registration order. */
  function NotifyStep(s: MusicState): MusicState {
    s.(invoked := s.invoked + s.listeners)
  }

  /** `playCurrentSong`: picks the song under the index and restarts the engine on it. */
  function PlayCurrentStep(s: MusicState): (r: MusicState)
    requires IndexValid(s)
    ensures |s.playlist| == 0 ==> r == s
    ensures |s.playlist| > 0 ==> r.audio == Some(s.playlist[s.index]) && r.index == s.index
  {
    if |s.playlist| == 0 then s
    else NotifyStep(s.(audio := Some(s.playlist[s.index]), playing := false, position := 0))
  }

  function NextIndex(s: MusicState, random: int): int
    requires |s.playlist| > 0 && RandomFits(s, random)
  {
    if s.shuffle then random else (s.index + 1) % |s.playlist|
  }

  function PreviousIndex(s: MusicState, random: int): int
    requires |s.playlist| > 0 && RandomFits(s, random)
  {
    if s.shuffle then random else if s.index > 0 then s.index - 1 else |s.playlist| - 1
  }

  function PlayNextStep(s: MusicState, random: int): MusicState
    requires IndexValid(s) && RandomFits(s, random)
  {
    if |s.playlist| == 0 then s else PlayCurrentStep(s.(index := NextIndex(s, random)))
  }

  function PlayPreviousStep(s: MusicState, random: int): MusicState
    requires IndexValid(s) && RandomFits(s, random)
  {
    if |s.playlist| == 0 then s else PlayCurrentStep(s.(index := PreviousIndex(s, random)))
  }

  /** The completion listener, after the engine has stopped at the end of the track. */
  function CompletionStep(s: MusicState, random: int): MusicState
    requires IndexValid(s) && RandomFits(s, random)
  {
    match s.repeat
    case ONE => PlayCurrentStep(s)
    case ALL => PlayNextStep(s, random)
    case NONE => if s.index < |s.playlist| - 1 then PlayNextStep(s, random) else s
  }

  /** `setPlaylist`; on an empty list the playlist is replaced and then `coerceIn` throws. */
  function SetPlaylistStep(s: MusicState, newPlaylist: seq<AudioFile>, startIndex: int): (r: MusicState)
    requires IndexValid(s)
    ensures r.playlist == newPlaylist && IndexValid(r)
    ensures |newPlaylist| == 0 ==> r == s.(playlist := newPlaylist)
    ensures |newPlaylist| > 0 ==> r.index == CoerceIn(startIndex, 0, |newPlaylist| - 1)
    ensures |newPlaylist| > 0 ==> r.audio == Some(newPlaylist[r.index])
  {
    if |newPlaylist| == 0 then s.(playlist := newPlaylist)
    else PlayCurrentStep(s.(playlist := newPlaylist, index := CoerceIn(startIndex, 0, |newPlaylist| - 1)))
  }

  // ------------------------------------------------------------ properties

  /** Every index-changing step keeps the index valid. */
  lemma StepsKeepIndexValid(s: MusicState, random: int)
    requires IndexValid(s) && RandomFits(s, random)
    ensures IndexValid(PlayCurrentStep(s))
    ensures IndexValid(PlayNextStep(s, random)) && IndexValid(PlayPreviousStep(s, random))
    ensures IndexValid(CompletionStep(s, random))
  {
  }

  /** Non-shuffle next is `(i + 1) % size`: from the last track it wraps to the first
      whatever the repeat mode, and otherwise it moves forward by one. */
  lemma NextWrapsWhateverRepeat(s: MusicState, random: int)
    requires IndexValid(s) && !s.shuffle && |s.playlist| > 0
    ensures s.index == |s.playlist| - 1 ==> PlayNextStep(s, random).index == 0
    ensures s.index < |s.playlist| - 1 ==> PlayNextStep(s, random).index == s.index + 1
    ensures PlayNextStep(s, random).audio == Some(s.playlist[PlayNextStep(s, random).index])
  {
  }

  /** Non-shuffle previous moves back by one, and from the first track to the last. */
  lemma PreviousWraps(s: MusicState, random: int)
    requires IndexValid(s) && !s.shuffle && |s.playlist| > 0
    ensures s.index > 0 ==> PlayPreviousStep(s, random).index == s.index - 1
    ensures s.index == 0 ==> PlayPreviousStep(s, random).index == |s.playlist| - 1
  {
  }

  /** Shuffle may draw the current index again, in both directions. */
  lemma ShuffleMayRepeat(s: MusicState)
    requires IndexValid(s) && s.shuffle && |s.playlist| > 0
    ensures PlayNextStep(s, s.index).index == s.index
    ensures PlayPreviousStep(s, s.index).index == s.index
    ensures PlayNextStep(s, s.index).audio == Some(s.playlist[s.index])
  {
  }

  /** Shuffle next and previous go to the drawn index, whichever it is, and play that song. */
  lemma ShuffleGoesToDraw(s: MusicState, random: int)
    requires IndexValid(s) && s.shuffle && |s.playlist| > 0 && 0 <= random < |s.playlist|
    ensures PlayNextStep(s, random).index == random
    ensures PlayNextStep(s, random).audio == Some(s.playlist[random])
    ensures PlayPreviousStep(s, random).index == random
    ensures PlayPreviousStep(s, random).audio == Some(s.playlist[random])
  {
  }

  /** Completion: ONE replays the same track, ALL advances as "next" does, NONE
      advances only before the last track and otherwise leaves everything as is. */
  lemma CompletionRules(s: MusicState, random: int)
    requires IndexValid(s) && RandomFits(s, random) && |s.playlist| > 0
    ensures s.repeat == ONE ==>
      CompletionStep(s, random).index == s.index &&
      CompletionStep(s, random).audio == Some(s.playlist[s.index])
    ensures s.repeat == ALL ==> CompletionStep(s, random) == PlayNextStep(s, random)
    ensures s.repeat == NONE && s.index < |s.playlist| - 1 ==>
      CompletionStep(s, random) == PlayNextStep(s, random)
    ensures s.repeat == NONE && s.index == |s.playlist| - 1 ==> CompletionStep(s, random) == s
  {
  }

  // ------------------------------------------------------------ the service

  class MusicService {
    var playlist: seq<AudioFile>
    var currentIndex: int
    var currentAudio: Option<AudioFile>
    var isShuffleOn: bool
    var repeatMode: RepeatMode
    var playing: bool
    var position: int
    var playbackStateListeners: seq<ListenerId>
    var invoked: seq<ListenerId>

    function State(): MusicState
      reads this
    {
      MusicState(playlist, currentIndex, currentAudio, isShuffleOn, repeatMode,
                 playing, position, playbackStateListeners, invoked)
    }

    predicate Valid()
      reads this
    {
      IndexValid(State())
    }

    /** The source has no setter for the shuffle flag or the repeat mode, so both keep these values. */
    constructor ()
      ensures Valid()
      ensures State() == MusicState([], 0, None, false, NONE, false, 0, [], [])
    {
      playlist := [];
      currentIndex := 0;
      currentAudio := None;
      isShuffleOn := false;
      repeatMode := NONE;
      playing := false;
      position := 0;
      playbackStateListeners := [];
      invoked := [];
    }

    method SetPlaylist(newPlaylist: seq<AudioFile>, startIndex: int) returns (thrown: bool)
      requires Valid()
      modifies this
      ensures Valid()
      ensures thrown <==> |newPlaylist| == 0
      ensures State() == SetPlaylistStep(old(State()), newPlaylist, startIndex)
    {
      playlist := newPlaylist;
      if |playlist| == 0 {
        thrown := true;
        return;
      }
      thrown := false;
      currentIndex := CoerceIn(startIndex, 0, |playlist| - 1);
      PlayCurrentSong();
    }

    function GetCurrentAudio(): (a: Option<AudioFile>)
      reads this
      ensures a == State().audio
    {
      currentAudio
    }

    method PlayCurrentSong()
      requires Valid()
      modifies this
      ensures Valid()
      ensures State() == PlayCurrentStep(old(State()))
    {
      if |playlist| == 0 {
        return;
      }
      currentAudio := Some(playlist[currentIndex]);
      // reset(), setDataSource(), prepareAsync(): the engine restarts on the new track
      playing := false;
      position := 0;
      NotifyPlaybackStateChanged();
    }

    /** The engine's prepared callback: playback starts. */
    method OnPrepared()
      modifies this
      ensures State() == NotifyStep(old(State()).(playing := true))
    {
      playing := true;
      NotifyPlaybackStateChanged();
    }

    method TogglePlayPause()
      modifies this
      ensures State() == NotifyStep(old(State()).(playing := !old(playing)))
    {
      playing := !playing;
      NotifyPlaybackStateChanged();
    }

    method PlayNext(random: int)
      requires Valid() && RandomFits(State(), random)
      modifies this
      ensures Valid()
      ensures State() == PlayNextStep(old(State()), random)
    {
      if |playlist| == 0 {
        return;
      }
      currentIndex := if isShuffleOn then random else (currentIndex + 1) % |playlist|;
      PlayCurrentSong();
    }

    method PlayPrevious(random: int)
      requires Valid() && RandomFits(State(), random)
      modifies this
      ensures Valid()
      ensures State() == PlayPreviousStep(old(State()), random)
    {
      if |playlist| == 0 {
        return;
      }
      currentIndex := if isShuffleOn then random
                      else if currentIndex > 0 then currentIndex - 1
                      else |playlist| - 1;
      PlayCurrentSong();
    }

    /** The engine reached the end of the track: it stops, then the completion listener runs. */
    method OnCompletion(random: int)
      requires Valid() && RandomFits(State(), random)
      modifies this
      ensures Valid()
      ensures State() == CompletionStep(old(State()).(playing := false), random)
    {
      playing := false;
      match repeatMode
      case ONE => PlayCurrentSong();
      case ALL => PlayNext(random);
      case NONE => if currentIndex < |playlist| - 1 { PlayNext(random); }
    }

    function IsPlaying(): (b: bool)
      reads this
      ensures b == State().playing
    {
      playing
    }

    function GetCurrentPosition(): (p: int)
      reads this
      ensures p == State().position
    {
      position
    }

    method SeekTo(p: int)
      modifies this
      ensures State() == old(State()).(position := p)
    {
      position := p;
    }

    method AddPlaybackStateListener(listener: ListenerId)
      modifies this
      ensures State() == old(State()).(listeners := old(playbackStateListeners) + [listener])
    {
      playbackStateListeners := playbackStateListeners + [listener];
    }

    method RemovePlaybackStateListener(listener: ListenerId)
      modifies this
      ensures State() == old(State()).(listeners := RemoveFirst(old(playbackStateListeners), listener))
    {
      var s := playbackStateListeners;
      var i := 0;
      while i < |s| && s[i] != listener
        invariant 0 <= i <= |s|
        invariant listener !in s[..i]
        invariant RemoveFirst(s, listener) == s[..i] + RemoveFirst(s[i..], listener)
      {
        assert s[..i + 1] == s[..i] + [s[i]];
        assert s[i..] == [s[i]] + s[i + 1..];
        i := i + 1;
      }
      if i < |s| {
        playbackStateListeners := s[..i] + s[i + 1..];
      }
    }

    method NotifyPlaybackStateChanged()
      modifies this
      ensures State() == NotifyStep(old(State()))
    {
      var i := 0;
      while i < |playbackStateListeners|
        invariant 0 <= i <= |playbackStateListeners|
        invariant playbackStateListeners == old(playbackStateListeners)
        invariant invoked == old(invoked) + playbackStateListeners[..i]
        invariant State() == old(State()).(invoked := invoked)
      {
        invoked := invoked + [playbackStateListeners[i]];
        i := i + 1;
      }
    }
  }
}
