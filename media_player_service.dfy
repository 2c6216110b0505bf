/**
 * The playback service: a queue that is only ever replaced wholesale, a
 * cursor `currentSongPosition` that starts at -1, a shuffle flag and a repeat
 * mode, the song last handed to the engine, and the resume state kept in a
 * key-value store.
 *
 * The ExoPlayer engine is abstracted to two fields: whether it is playing
 * and its position in milliseconds. `Random.nextInt(n)` is the parameter
 * `random`, required to lie in `0 until n` exactly when the source draws it.
 *
 * Every state change is specified by a pure step function over a snapshot
 * `PlayerState`; the properties of the policy are lemmas about those steps.
 */
module PlayerService {
  import opened Wrappers
  import opened Numbers
  import opened Media

  const REPEAT_OFF: int := 0
  const REPEAT_ONE: int := 1
  const REPEAT_ALL: int := 2

  // Keys of the resume state in the preferences store.
  const PREF_LAST_SONG_ID: string := "last_song_id"
  const PREF_LAST_SONG_URI: string := "last_song_uri"
  const PREF_LAST_SONG_TITLE: string := "last_song_title"
  const PREF_LAST_SONG_ARTIST: string := "last_song_artist"
  const PREF_LAST_SONG_ALBUM: string := "last_song_album"
  const PREF_LAST_POSITION: string := "last_position"
  const PREF_WAS_PLAYING: string := "was_playing"

  /** A value of the key-value store, tagged with the type it was put as. */
  datatype PrefValue = PrefString(s: string) | PrefLong(n: int) | PrefBool(b: bool)

  /** Everything the service holds, as one value. */
  datatype PlayerState = PlayerState(
    queue: seq<AudioFile>,
    cursor: int,            // currentSongPosition
    shuffle: bool,          // isShuffleEnabled
    repeat: int,            // repeatMode
    current: Option<AudioFile>,  // _currentSong
    playing: bool,          // the engine is playing
    position: int,          // the engine's position, in milliseconds
    prefs: map<string, PrefValue>)

  /** The state of a service that has just been created over a store. */
  function Initial(prefs: map<string, PrefValue>): (s: PlayerState)
    ensures s.queue == [] && s.cursor == -1 && !s.shuffle && s.repeat == REPEAT_OFF
    ensures s.current == None && !s.playing && s.position == 0 && s.prefs == prefs
  {
    PlayerState([], -1, false, REPEAT_OFF, None, false, 0, prefs)
  }

  predicate InQueue(s: PlayerState, index: int) { 0 <= index < |s.queue| }

  // ------------------------------------------------------------ the policy

  /** `queue.indices.filter { it != cursor }`: every index but the cursor, in order. */
  function ShuffleCandidates(size: nat, cursor: int): (r: seq<int>)
    ensures forall i :: 0 <= i < |r| ==> 0 <= r[i] < size && r[i] != cursor
    ensures forall j :: 0 <= j < size && j != cursor ==> j in r
    ensures forall i, j :: 0 <= i < j < |r| ==> r[i] < r[j]
    ensures |r| == if 0 <= cursor < size then size - 1 else size
  {
    if size == 0 then []
    else ShuffleCandidates(size - 1, cursor) + (if size - 1 == cursor then [] else [size - 1])
  }

  /** `random` is what `Random.nextInt` may return wherever the next rule draws it. */
  predicate RandomFits(s: PlayerState, random: int) {
    var c := ShuffleCandidates(|s.queue|, s.cursor);
    s.shuffle && |c| > 0 ==> 0 <= random < |c|
  }

  /** The `when` of `playNextSong`: the index to move to, or `None` for `return`. */
  function NextPosition(s: PlayerState, random: int): Option<int>
    requires RandomFits(s, random)
  {
    if |s.queue| == 0 then None
    else if s.shuffle then
      var c := ShuffleCandidates(|s.queue|, s.cursor);
      if |c| > 0 then Some(c[random]) else None
    else if s.cursor == |s.queue| - 1 then
      if s.repeat == REPEAT_ALL then Some(0) else None
    else Some(s.cursor + 1)
  }

  /** The index `playPreviousSong` moves to, or `None` on an empty queue. */
  function PreviousPosition(s: PlayerState): Option<int> {
    if |s.queue| == 0 then None
    else Some(if s.cursor > 0 then s.cursor - 1 else |s.queue| - 1)
  }

  // ------------------------------------------------------------ the steps

  /**
   * `playSong(index, startPosition, autoPlay)`: an index outside the queue is
   * ignored; otherwise the song is handed to the engine. The cursor is never
   * touched, whatever the index.
   */
  function PlaySongStep(s: PlayerState, index: int, startPosition: int, autoPlay: bool): (r: PlayerState)
    ensures r.queue == s.queue && r.cursor == s.cursor && r.shuffle == s.shuffle
    ensures r.repeat == s.repeat && r.prefs == s.prefs
    ensures !InQueue(s, index) ==> r == s
    ensures InQueue(s, index) ==> r.current == Some(s.queue[index])
    ensures InQueue(s, index) ==> r.position == (if startPosition > 0 then startPosition else 0)
    ensures InQueue(s, index) ==> (r.playing <==> s.playing || autoPlay)
  {
    if 0 <= index < |s.queue| then
      s.(current := Some(s.queue[index]),
         position := if startPosition > 0 then startPosition else 0,
         playing := s.playing || autoPlay)
    else s
  }

  /** The move shared by next and previous: play the index, then set the cursor to it. */
  function MoveTo(s: PlayerState, target: Option<int>): PlayerState {
    match target
    case None => s
    case Some(p) => PlaySongStep(s, p, 0, true).(cursor := p)
  }

  /** `playNextSong` and `skipToNext`. */
  function NextStep(s: PlayerState, random: int): (r: PlayerState)
    requires RandomFits(s, random)
    ensures |s.queue| == 0 ==> r == s
    ensures r.queue == s.queue && r.shuffle == s.shuffle && r.repeat == s.repeat && r.prefs == s.prefs
  {
    MoveTo(s, NextPosition(s, random))
  }

  /** `playPreviousSong` and `skipToPrevious`. */
  function PreviousStep(s: PlayerState): (r: PlayerState)
    ensures |s.queue| == 0 ==> r == s
    ensures r.queue == s.queue && r.shuffle == s.shuffle && r.repeat == s.repeat && r.prefs == s.prefs
  {
    MoveTo(s, PreviousPosition(s))
  }

  /** `onSongCompleted`; a repeat mode outside the three constants does nothing. */
  function CompletedStep(s: PlayerState, random: int): PlayerState
    requires RandomFits(s, random)
  {
    if s.repeat == REPEAT_OFF then NextStep(s, random)
    else if s.repeat == REPEAT_ONE then s.(position := 0, playing := true)
    else if s.repeat == REPEAT_ALL then NextStep(s, random)
    else s
  }

  // ------------------------------------------------------------ resume state

  /** The entries `savePlaybackState` puts for the current song. */
  function SavedPrefs(s: PlayerState): map<string, PrefValue> {
    match s.current
    case None => s.prefs
    case Some(song) =>
      s.prefs[PREF_LAST_SONG_ID := PrefString(IntToString(song.id))]
             [PREF_LAST_SONG_URI := PrefString(song.uri.text)]
             [PREF_LAST_SONG_TITLE := PrefString(song.title)]
             [PREF_LAST_SONG_ARTIST := PrefString(song.artist)]
             [PREF_LAST_SONG_ALBUM := PrefString(song.album)]
             [PREF_LAST_POSITION := PrefLong(s.position)]
             [PREF_WAS_PLAYING := PrefBool(s.playing)]
  }

  function SaveStep(s: PlayerState): (r: PlayerState)
    ensures r == s.(prefs := r.prefs)
    ensures s.current.None? ==> r == s
  {
    s.(prefs := SavedPrefs(s))
  }

  /**
   * What a typed getter of the store finds: nothing, a value of the asked
   * type, or a value of another type (the getter then throws).
   */
  datatype Lookup<T> = Missing | Found(v: T) | WrongType {
    function Or(default: T): T requires !WrongType? {
      if Found? then v else default
    }
  }

  function StringAt(prefs: map<string, PrefValue>, key: string): (r: Lookup<string>)
    ensures r.Found? <==> key in prefs && prefs[key].PrefString?
    ensures r.Missing? <==> key !in prefs
  {
    if key !in prefs then Missing
    else match prefs[key]
      case PrefString(v) => Found(v)
      case _ => WrongType
  }

  function LongAt(prefs: map<string, PrefValue>, key: string): (r: Lookup<int>)
    ensures r.Found? <==> key in prefs && prefs[key].PrefLong?
    ensures r.Missing? <==> key !in prefs
  {
    if key !in prefs then Missing
    else match prefs[key]
      case PrefLong(v) => Found(v)
      case _ => WrongType
  }

  function BoolAt(prefs: map<string, PrefValue>, key: string): (r: Lookup<bool>)
    ensures r.Found? <==> key in prefs && prefs[key].PrefBool?
    ensures r.Missing? <==> key !in prefs
  {
    if key !in prefs then Missing
    else match prefs[key]
      case PrefBool(v) => Found(v)
      case _ => WrongType
  }

  /** What `restorePlaybackState` reads from the store. */
  datatype SavedState =
    | NothingSaved
    | Restored(song: AudioFile, position: int, wasPlaying: bool)
    | Thrown   // a getter found the wrong type, or the id is not a Long

  /** The song a restore rebuilds from the stored fields. */
  function ResumedSong(id: int, uri: string, title: string, artist: string, album: string): (a: AudioFile)
    ensures a.duration == 0 && a.path == "" && a.albumArtUri == None
    ensures a.size == 0 && a.dateAdded == 0 && a.dateModified == 0
  {
    AudioFile(id, title, artist, album, 0, Uri(uri), "")
  }

  function ReadSavedState(prefs: map<string, PrefValue>): (r: SavedState)
    ensures r.Restored? ==> PREF_LAST_SONG_ID in prefs && PREF_LAST_SONG_URI in prefs
    ensures r.Restored? ==> r.song.duration == 0 && r.song.path == ""
    ensures PREF_LAST_SONG_ID !in prefs && !r.Thrown? ==> r.NothingSaved?
  {
    var id := StringAt(prefs, PREF_LAST_SONG_ID);
    var uri := StringAt(prefs, PREF_LAST_SONG_URI);
    var wasPlaying := BoolAt(prefs, PREF_WAS_PLAYING);
    if id.WrongType? || uri.WrongType? || wasPlaying.WrongType? then Thrown
    else if id.Missing? || uri.Missing? then NothingSaved
    else
      var title := StringAt(prefs, PREF_LAST_SONG_TITLE);
      var artist := StringAt(prefs, PREF_LAST_SONG_ARTIST);
      var album := StringAt(prefs, PREF_LAST_SONG_ALBUM);
      var position := LongAt(prefs, PREF_LAST_POSITION);
      match ParseLong(id.v)
      case None => Thrown
      case Some(songId) =>
        if title.WrongType? || artist.WrongType? || album.WrongType? || position.WrongType? then Thrown
        else Restored(ResumedSong(songId, uri.v, title.Or(""), artist.Or(""), album.Or("")),
                      position.Or(0), wasPlaying.Or(false))
  }

  /** `restorePlaybackState`: the saved song becomes current, then `playSong(position.toInt())`. */
  function RestoreStep(s: PlayerState): (r: PlayerState)
    ensures ReadSavedState(s.prefs).Restored? ==> r.current.Some?
    ensures !ReadSavedState(s.prefs).Restored? ==> r == s
    ensures r.queue == s.queue && r.cursor == s.cursor && r.prefs == s.prefs
  {
    match ReadSavedState(s.prefs)
    case Restored(song, position, wasPlaying) =>
      PlaySongStep(s.(current := Some(song)), ToInt32(position), 0, wasPlaying)
    case _ => s
  }

  // ------------------------------------------------------------ properties

  /** Shuffle-next picks an index of the queue other than the cursor, and stays put
      exactly when there is none: a one-song queue whose song is under the cursor. */
  lemma ShuffleNextPicksAnotherIndex(s: PlayerState, random: int)
    requires s.shuffle && |s.queue| > 0 && RandomFits(s, random)
    ensures var r := NextStep(s, random);
      (r == s <==> |s.queue| == 1 && s.cursor == 0) &&
      (r != s ==> InQueue(s, r.cursor) && r.cursor != s.cursor &&
                  r.current == Some(s.queue[r.cursor]) && r.playing && r.position == 0)
  {
    var c := ShuffleCandidates(|s.queue|, s.cursor);
    if |s.queue| == 1 && s.cursor == 0 {
      assert |c| == 0;
    } else {
      assert |c| > 0;
      assert c[random] != s.cursor;
    }
  }

  /** Non-shuffle next from the last index wraps to 0 under REPEAT_ALL and does nothing otherwise. */
  lemma NextFromLastIndex(s: PlayerState, random: int)
    requires !s.shuffle && |s.queue| > 0 && s.cursor == |s.queue| - 1 && RandomFits(s, random)
    ensures s.repeat == REPEAT_ALL ==>
      NextStep(s, random).cursor == 0 && NextStep(s, random).current == Some(s.queue[0])
    ensures s.repeat != REPEAT_ALL ==> NextStep(s, random) == s
  {
  }

  /** Everywhere else non-shuffle next moves the cursor by one, so -1 goes to 0; past the
      end of the queue the song is rejected but the cursor is still assigned. */
  lemma NextStepsByOne(s: PlayerState, random: int)
    requires !s.shuffle && |s.queue| > 0 && s.cursor != |s.queue| - 1 && RandomFits(s, random)
    ensures NextStep(s, random).cursor == s.cursor + 1
    ensures InQueue(s, s.cursor + 1) ==> NextStep(s, random).current == Some(s.queue[s.cursor + 1])
    ensures !InQueue(s, s.cursor + 1) ==> NextStep(s, random) == s.(cursor := s.cursor + 1)
  {
  }

  /** After `setQueue` shrinks the queue under the cursor, next leaves the cursor outside it. */
  lemma NextAfterShrinkLeavesQueue(s: PlayerState, a: AudioFile, b: AudioFile, c: AudioFile)
    requires s.queue == [a, b, c] && s.cursor == 2 && !s.shuffle
    ensures var t := NextStep(s.(queue := [a]), 0);
      t.cursor == 3 && !InQueue(t, t.cursor) && t.current == s.current
  {
  }

  /** The cursor points into the queue or is the initial -1. */
  predicate CursorSane(s: PlayerState) { -1 <= s.cursor < |s.queue| }

  /** As long as the queue is not replaced, every transport step keeps the cursor sane,
      and a step that moves it lands on a song of the queue and plays it. */
  lemma StepsKeepCursorSane(s: PlayerState, random: int, index: int, start: int, auto: bool)
    requires CursorSane(s) && RandomFits(s, random)
    ensures CursorSane(PlaySongStep(s, index, start, auto))
    ensures CursorSane(NextStep(s, random)) && CursorSane(PreviousStep(s))
    ensures CursorSane(CompletedStep(s, random))
    ensures var r := NextStep(s, random);
      r.cursor != s.cursor ==> InQueue(r, r.cursor) && r.current == Some(s.queue[r.cursor])
    ensures var r := PreviousStep(s);
      r.cursor != s.cursor ==> InQueue(r, r.cursor) && r.current == Some(s.queue[r.cursor])
  {
    if s.shuffle && |s.queue| > 0 {
      var c := ShuffleCandidates(|s.queue|, s.cursor);
      if |c| > 0 { assert 0 <= c[random] < |s.queue|; }
    }
  }

  /** The shuffle flag plays no part in "previous". */
  lemma PreviousIgnoresShuffle(s: PlayerState, b: bool)
    ensures PreviousStep(s.(shuffle := b)) == PreviousStep(s).(shuffle := b)
  {
  }

  /** Previous goes to cursor-1, or wraps to the last index from 0 or -1; it lands
      on a song exactly when the cursor was not beyond the end of the queue. */
  lemma PreviousMoves(s: PlayerState)
    requires |s.queue| > 0
    ensures s.cursor > 0 ==> PreviousStep(s).cursor == s.cursor - 1
    ensures s.cursor <= 0 ==> PreviousStep(s).cursor == |s.queue| - 1 &&
                              PreviousStep(s).current == Some(s.queue[|s.queue| - 1])
    ensures InQueue(s, PreviousStep(s).cursor) <==> s.cursor <= |s.queue|
  {
  }

  /** REPEAT_ONE restarts the same song from 0 without moving the cursor;
      REPEAT_OFF and REPEAT_ALL both apply the next rule. */
  lemma CompletionRules(s: PlayerState, random: int)
    requires RandomFits(s, random)
    ensures s.repeat == REPEAT_ONE ==> var r := CompletedStep(s, random);
      r.cursor == s.cursor && r.current == s.current && r.queue == s.queue &&
      r.position == 0 && r.playing
    ensures s.repeat == REPEAT_OFF || s.repeat == REPEAT_ALL ==>
      CompletedStep(s, random) == NextStep(s, random)
  {
  }

  /** With REPEAT_OFF, the end of the last song of the queue stops there. */
  lemma CompletionAtEndStops(s: PlayerState, random: int)
    requires !s.shuffle && s.repeat == REPEAT_OFF && |s.queue| > 0 && s.cursor == |s.queue| - 1
    requires RandomFits(s, random)
    ensures CompletedStep(s, random) == s
  {
    NextFromLastIndex(s, random);
  }

  /** `playSong` does not move the service's cursor, so "next" after picking song k
      from a fresh queue goes to index 0, not to k+1. */
  lemma NextAfterPickIgnoresPick(s: PlayerState, k: int, random: int)
    requires !s.shuffle && s.cursor == -1 && |s.queue| >= 2 && InQueue(s, k)
    ensures NextStep(PlaySongStep(s, k, 0, true), random).cursor == 0
    ensures NextStep(PlaySongStep(s, k, 0, true), random).current == Some(s.queue[0])
  {
  }

  /** Save then restore gives back the id, uri, title, artist and album of the
      current song (duration 0, path ""), its position and the playing flag. */
  lemma SaveThenRead(s: PlayerState)
    requires s.current.Some? && InLongRange(s.current.value.id)
    ensures var song := s.current.value;
      ReadSavedState(SaveStep(s).prefs) ==
        Restored(ResumedSong(song.id, song.uri.text, song.title, song.artist, song.album),
                 s.position, s.playing)
  {
    var song := s.current.value;
    var m := SaveStep(s).prefs;
    KeysDistinct();
    assert StringAt(m, PREF_LAST_SONG_ID) == Found(IntToString(song.id));
    assert StringAt(m, PREF_LAST_SONG_URI) == Found(song.uri.text);
    assert StringAt(m, PREF_LAST_SONG_TITLE) == Found(song.title);
    assert StringAt(m, PREF_LAST_SONG_ARTIST) == Found(song.artist);
    assert StringAt(m, PREF_LAST_SONG_ALBUM) == Found(song.album);
    assert LongAt(m, PREF_LAST_POSITION) == Found(s.position);
    assert BoolAt(m, PREF_WAS_PLAYING) == Found(s.playing);
    ParseLongOfIntToString(song.id);
  }

  /** The seven keys of the resume state are different strings. */
  lemma KeysDistinct()
    ensures PREF_LAST_SONG_ID != PREF_LAST_SONG_URI && PREF_LAST_SONG_ID != PREF_LAST_SONG_TITLE
    ensures PREF_LAST_SONG_ID != PREF_LAST_SONG_ARTIST && PREF_LAST_SONG_ID != PREF_LAST_SONG_ALBUM
    ensures PREF_LAST_SONG_ID != PREF_LAST_POSITION && PREF_LAST_SONG_ID != PREF_WAS_PLAYING
    ensures PREF_LAST_SONG_URI != PREF_LAST_SONG_TITLE && PREF_LAST_SONG_URI != PREF_LAST_SONG_ARTIST
    ensures PREF_LAST_SONG_URI != PREF_LAST_SONG_ALBUM && PREF_LAST_SONG_URI != PREF_LAST_POSITION
    ensures PREF_LAST_SONG_URI != PREF_WAS_PLAYING
    ensures PREF_LAST_SONG_TITLE != PREF_LAST_SONG_ARTIST && PREF_LAST_SONG_TITLE != PREF_LAST_SONG_ALBUM
    ensures PREF_LAST_SONG_TITLE != PREF_LAST_POSITION && PREF_LAST_SONG_TITLE != PREF_WAS_PLAYING
    ensures PREF_LAST_SONG_ARTIST != PREF_LAST_SONG_ALBUM && PREF_LAST_SONG_ARTIST != PREF_LAST_POSITION
    ensures PREF_LAST_SONG_ARTIST != PREF_WAS_PLAYING
    ensures PREF_LAST_SONG_ALBUM != PREF_LAST_POSITION && PREF_LAST_SONG_ALBUM != PREF_WAS_PLAYING
    ensures PREF_LAST_POSITION != PREF_WAS_PLAYING
  {
    assert PREF_LAST_SONG_TITLE[10] != PREF_LAST_SONG_ALBUM[10];
    assert PREF_LAST_SONG_URI[5] != PREF_LAST_POSITION[5];
  }

  /** On a fresh service the queue is empty, so the `playSong(position.toInt())` of a
      restore is a no-op: only `_currentSong` changes, and the cursor stays -1. */
  lemma RestoreOnFreshServiceOnlySetsSong(prefs: map<string, PrefValue>)
    requires ReadSavedState(prefs).Restored?
    ensures RestoreStep(Initial(prefs)) == Initial(prefs).(current := Some(ReadSavedState(prefs).song))
    ensures !InQueue(RestoreStep(Initial(prefs)), -1)
  {
  }

  /** The saved position is in milliseconds, yet restore passes it to `playSong` as a
      queue index: with a long enough queue it selects the song at that index. */
  lemma RestoreUsesPositionAsIndex(s: PlayerState)
    requires ReadSavedState(s.prefs).Restored?
    requires InQueue(s, ToInt32(ReadSavedState(s.prefs).position))
    ensures RestoreStep(s).current == Some(s.queue[ToInt32(ReadSavedState(s.prefs).position)])
  {
  }

  /** A service destroyed with a current song resumes that song when created again. */
  lemma ResumeAfterRestart(s: PlayerState)
    requires s.current.Some? && InLongRange(s.current.value.id)
    ensures var song := s.current.value;
      RestoreStep(Initial(SaveStep(s).prefs)).current ==
        Some(ResumedSong(song.id, song.uri.text, song.title, song.artist, song.album))
  {
    SaveThenRead(s);
    RestoreOnFreshServiceOnlySetsSong(SaveStep(s).prefs);
  }

  // ------------------------------------------------------------ the service

  class MediaPlayerService {
    var queue: seq<AudioFile>
    var currentSongPosition: int
    var isShuffleEnabled: bool
    var repeatMode: int
    var currentSong: Option<AudioFile>
    var isPlaying: bool
    var position: int
    var prefs: map<string, PrefValue>

    function State(): PlayerState
      reads this
    {
      PlayerState(queue, currentSongPosition, isShuffleEnabled, repeatMode,
                  currentSong, isPlaying, position, prefs)
    }

    /** The service object over the store it opens in `onCreate`. */
    constructor (stored: map<string, PrefValue>)
      ensures State() == Initial(stored)
    {
      queue := [];
      currentSongPosition := -1;
      isShuffleEnabled := false;
      repeatMode := REPEAT_OFF;
      currentSong := None;
      isPlaying := false;
      position := 0;
      prefs := stored;
    }

    /** `onCreate`: restores the resume state; `thrown` when that raises. */
    method OnCreate() returns (thrown: bool)
      modifies this
      ensures thrown <==> ReadSavedState(old(prefs)).Thrown?
      ensures State() == RestoreStep(old(State()))
    {
      thrown := RestorePlaybackState();
    }

    /** `onDestroy`: saves the resume state (the engine release is not modelled). */
    method OnDestroy()
      modifies this
      ensures State() == SaveStep(old(State()))
    {
      SavePlaybackState();
    }

    method SavePlaybackState()
      modifies this
      ensures State() == SaveStep(old(State()))
    {
      if currentSong.Some? {
        var song := currentSong.value;
        prefs := prefs[PREF_LAST_SONG_ID := PrefString(IntToString(song.id))];
        prefs := prefs[PREF_LAST_SONG_URI := PrefString(song.uri.text)];
        prefs := prefs[PREF_LAST_SONG_TITLE := PrefString(song.title)];
        prefs := prefs[PREF_LAST_SONG_ARTIST := PrefString(song.artist)];
        prefs := prefs[PREF_LAST_SONG_ALBUM := PrefString(song.album)];
        prefs := prefs[PREF_LAST_POSITION := PrefLong(position)];
        prefs := prefs[PREF_WAS_PLAYING := PrefBool(isPlaying)];
      }
    }

    method RestorePlaybackState() returns (thrown: bool)
      modifies this
      ensures thrown <==> ReadSavedState(old(prefs)).Thrown?
      ensures State() == RestoreStep(old(State()))
    {
      var saved := ReadSavedState(prefs);
      thrown := saved.Thrown?;
      if saved.Restored? {
        currentSong := Some(saved.song);
        PlaySong(ToInt32(saved.position), 0, saved.wasPlaying);
      }
    }

    method PlaySong(index: int, startPosition: int, autoPlay: bool)
      modifies this
      ensures State() == PlaySongStep(old(State()), index, startPosition, autoPlay)
    {
      if !(0 <= index < |queue|) {
        return;
      }
      currentSong := Some(queue[index]);
      position := if startPosition > 0 then startPosition else 0;
      if autoPlay {
        isPlaying := true;
      }
    }

    method SetQueue(songs: seq<AudioFile>)
      modifies this
      ensures State() == old(State()).(queue := songs)
    {
      queue := songs;
    }

    function GetQueue(): (q: seq<AudioFile>)
      reads this
      ensures q == State().queue
    {
      queue
    }

    /** The song under the cursor, read from the queue (not `_currentSong`). */
    function GetCurrentSong(): (r: Option<AudioFile>)
      reads this
      ensures r.Some? <==> InQueue(State(), currentSongPosition)
      ensures r.Some? ==> r.value == queue[currentSongPosition]
    {
      if 0 <= currentSongPosition < |queue| then Some(queue[currentSongPosition]) else None
    }

    function GetCurrentPosition(): (p: int)
      reads this
      ensures p == State().position
    {
      position
    }

    method Play()
      modifies this
      ensures State() == old(State()).(playing := true)
    {
      isPlaying := true;
    }

    method Pause()
      modifies this
      ensures State() == old(State()).(playing := false)
    {
      isPlaying := false;
    }

    method SeekTo(p: int)
      modifies this
      ensures State() == old(State()).(position := p)
    {
      position := p;
    }

    method SetShuffleEnabled(enabled: bool)
      modifies this
      ensures State() == old(State()).(shuffle := enabled)
    {
      isShuffleEnabled := enabled;
    }

    method SetRepeatMode(mode: int)
      modifies this
      ensures State() == old(State()).(repeat := mode)
    {
      repeatMode := mode;
    }

    /** The engine reports `STATE_ENDED`: it stops, then `onSongCompleted` runs. */
    method OnPlaybackEnded(random: int)
      requires RandomFits(State(), random)
      modifies this
      ensures State() == CompletedStep(old(State()).(playing := false), random)
    {
      isPlaying := false;
      OnSongCompleted(random);
    }

    method OnSongCompleted(random: int)
      requires RandomFits(State(), random)
      modifies this
      ensures State() == CompletedStep(old(State()), random)
    {
      if repeatMode == REPEAT_OFF {
        PlayNextSong(random);
      } else if repeatMode == REPEAT_ONE {
        SeekTo(0);
        Play();
      } else if repeatMode == REPEAT_ALL {
        PlayNextSong(random);
      }
    }

    method PlayNextSong(random: int)
      requires RandomFits(State(), random)
      modifies this
      ensures State() == NextStep(old(State()), random)
    {
      if |queue| == 0 {
        return;
      }
      var nextPosition: int;
      if isShuffleEnabled {
        var availablePositions := ShuffleCandidates(|queue|, currentSongPosition);
        if |availablePositions| > 0 {
          nextPosition := availablePositions[random];
        } else {
          return;
        }
      } else if currentSongPosition == |queue| - 1 {
        if repeatMode == REPEAT_ALL {
          nextPosition := 0;
        } else {
          return;
        }
      } else {
        nextPosition := currentSongPosition + 1;
      }
      PlaySong(nextPosition, 0, true);
      currentSongPosition := nextPosition;
    }

    method PlayPreviousSong()
      modifies this
      ensures State() == PreviousStep(old(State()))
    {
      if |queue| == 0 {
        return;
      }
      var previousPosition := if currentSongPosition > 0 then currentSongPosition - 1 else |queue| - 1;
      PlaySong(previousPosition, 0, true);
      currentSongPosition := previousPosition;
    }

    /** A second copy of `playNextSong` in the source, checked against the same step. */
    method SkipToNext(random: int)
      requires RandomFits(State(), random)
      modifies this
      ensures State() == NextStep(old(State()), random)
    {
      if |queue| == 0 {
        return;
      }
      var nextPosition: int;
      if isShuffleEnabled {
        var availablePositions := ShuffleCandidates(|queue|, currentSongPosition);
        if |availablePositions| > 0 {
          nextPosition := availablePositions[random];
        } else {
          return;
        }
      } else if currentSongPosition == |queue| - 1 {
        if repeatMode == REPEAT_ALL {
          nextPosition := 0;
        } else {
          return;
        }
      } else {
        nextPosition := currentSongPosition + 1;
      }
      PlaySong(nextPosition, 0, true);
      currentSongPosition := nextPosition;
    }

    /** A second copy of `playPreviousSong` in the source, checked against the same step. */
    method SkipToPrevious()
      modifies this
      ensures State() == PreviousStep(old(State()))
    {
      if |queue| == 0 {
        return;
      }
      var previousPosition := if currentSongPosition > 0 then currentSongPosition - 1 else |queue| - 1;
      PlaySong(previousPosition, 0, true);
      currentSongPosition := previousPosition;
    }
  }
}
