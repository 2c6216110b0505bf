# MeraGaana playback core in Dafny

MeraGaana is an Android music player. This project models its playback core:

- the playback service `MediaPlayerService`: the play queue, the cursor, next, previous, shuffle, the repeat modes, and the resume state kept in `SharedPreferences`;
- the older `MusicService`: a playlist, an index and playback-state listeners;
- `PlayerViewModel`, which mirrors the service's state for the UI;
- the folder playlists built by `AudioScanner.getFolderPlaylists`;
- the two list adapters and the player screen: duration formatting, row highlighting, and the mapping from view-model state to buttons and the seek bar.

Each Kotlin file keeps its own shape:

- State that the source changes in place is a Dafny `class`. Each method states its new state as `State() == Step(old(State()), …)`, where `Step` is a pure function.
- The lemmas about those step functions carry what the source promises and the edge cases it has.
- Pure Kotlin helpers are Dafny functions with named results and contracts.
- Kotlin semantics are written out in module `Numbers`:
  - `Long` and `Int` division truncate toward zero (`TDiv` and `TRem`);
  - `Long.toInt()` wraps around to 32 bits (`ToInt32`);
  - decimal printing (`IntToString`, and `Pad2` for `%02d`);
  - `String.toLong()` (`ParseLong`);
  - a reader `ParseClock` for the `m:ss` strings the UI prints. It is used only to state that the printed text reads back to the value it was printed from.

Modules and files:

| module | file | models |
|---|---|---|
| `Wrappers` | wrappers.dfy | `Option` |
| `Numbers` | numbers.dfy | Kotlin integer and string conversions |
| `Media` | media.dfy | `AudioFile` (utils/AudioFile.kt), `FolderPlaylist` (data/FolderPlaylist.kt) |
| `PlayerService` | media_player_service.dfy | service/MediaPlayerService.kt |
| `LegacyService` | music_service.dfy | service/MusicService.kt |
| `ViewModel` | player_view_model.dfy | viewmodel/PlayerViewModel.kt |
| `Scanner` | audio_scanner.dfy | utils/AudioScanner.kt, `getFolderPlaylists` |
| `Adapters` | audio_adapter.dfy | adapters/AudioAdapter.kt |
| `UiAdapters` | song_adapter.dfy | ui/adapters/SongAdapter.kt |
| `PlayerScreen` | player_fragment.dfy | ui/player/PlayerFragment.kt |

Behaviour of the code that the lemmas make explicit:

- `playSong` never moves `currentSongPosition`. After a song is picked from the list, "next" goes to index 0, not to the song after the pick (`NextAfterPickIgnoresPick`).
- A restore passes the saved position, which is in milliseconds, to `playSong` as a queue index.
  - On a freshly created service the queue is empty, so this does nothing (`RestoreOnFreshServiceOnlySetsSong`).
  - With a long enough queue it selects the song at that index (`RestoreUsesPositionAsIndex`).
- `setQueue` does not reset the cursor. After a shrink, "next" can leave the cursor outside the queue (`NextAfterShrinkLeavesQueue`).
- A negative duration prints with minus signs in the list adapter (`FormatDurationNegative`).
- For a duration above `Int.MAX_VALUE`, the `Int` that `duration.toInt()` passes to `seekBar.max` wraps around (`SeekBarWrapsBeyondInt`).
- Shuffle in `MusicService` may replay the same song (`ShuffleMayRepeat`).

## Model

Source paths are relative to the repository root.

| member | source | states |
|---|---|---|
| Numbers.ToInt32 | app/src/main/java/com/first/meragaana/service/MediaPlayerService.kt:210 | `Long.toInt()` keeps the low 32 bits: the result is an `Int` congruent to the input modulo 2^32, and equal to it when it already fits |
| Numbers.TDiv | app/src/main/java/com/first/meragaana/adapters/AudioAdapter.kt:50-51 | Kotlin `/` by a positive divisor rounds toward zero: it is floor division for a non-negative dividend and minus the quotient of the magnitude for a negative one |
| Numbers.TRem | app/src/main/java/com/first/meragaana/adapters/AudioAdapter.kt:51 | Kotlin `%` by a positive divisor b: the dividend equals quotient*b + remainder, with 0 <= r < b for a non-negative dividend and -b < r <= 0 for a negative one |
| Numbers.DigitsValueOfDigits | app/src/main/java/com/first/meragaana/service/MediaPlayerService.kt:173 | the decimal digits of n are all digits and read back as n |
| Numbers.Pad2Value | app/src/main/java/com/first/meragaana/ui/player/PlayerFragment.kt:170 | `%02d` of 0 <= n < 100 is two digits that read back as n |
| Numbers.ParseLongOfIntToString | app/src/main/java/com/first/meragaana/service/MediaPlayerService.kt:173-193 | `toString()` followed by `toLong()` returns every Long unchanged, negative ones included |
| Numbers.ParseLongOfNegative | app/src/main/java/com/first/meragaana/service/MediaPlayerService.kt:193 | `toLong()` of "-" followed by digits is minus their value, down to `Long.MIN_VALUE` |
| Numbers.ReadBackClock | app/src/main/java/com/first/meragaana/adapters/AudioAdapter.kt:52 | "minutes:ss" with seconds below 60 reads back as minutes*60+seconds |
| Numbers.ReadBackPaddedClock | app/src/main/java/com/first/meragaana/ui/player/PlayerFragment.kt:170 | "mm:ss" with two padded fields reads back as minutes*60+seconds |
| PlayerService.ShuffleCandidates | app/src/main/java/com/first/meragaana/service/MediaPlayerService.kt:490 | `queue.indices.filter { it != currentSongPosition }`: exactly the indices of the queue other than the cursor, in increasing order; its length is size-1 when the cursor is in the queue and size otherwise |
| PlayerService.NextPosition | app/src/main/java/com/first/meragaana/service/MediaPlayerService.kt:485-501 | the `when` of `playNextSong`: nothing on an empty queue; under shuffle the drawn candidate, or nothing when there is none; from the last index 0 under REPEAT_ALL and nothing otherwise; else the cursor plus one (its cases are the lemmas `ShuffleNextPicksAnotherIndex`, `NextFromLastIndex` and `NextStepsByOne`) |
| PlayerService.PreviousPosition | app/src/main/java/com/first/meragaana/service/MediaPlayerService.kt:508-509 | nothing on an empty queue, else the cursor minus one, or the last index from 0 or below (stated by `PreviousMoves`) |
| PlayerService.MoveTo | app/src/main/java/com/first/meragaana/service/MediaPlayerService.kt:503-504 | the shared tail of next and previous: play the target with start 0 and autoPlay, then set the cursor to it, even when `playSong` rejects the target (`NextStepsByOne`) |
| PlayerService.PlaySongStep | app/src/main/java/com/first/meragaana/service/MediaPlayerService.kt:214-262 | an index outside the queue changes nothing; otherwise that song becomes current, playback starts at max(startPosition,0), and it plays if it was playing or autoPlay is set; the queue, cursor, shuffle, repeat and prefs never change |
| PlayerService.NextStep | app/src/main/java/com/first/meragaana/service/MediaPlayerService.kt:484-505 | on an empty queue nothing happens; the queue, shuffle, repeat and prefs are kept |
| PlayerService.PreviousStep | app/src/main/java/com/first/meragaana/service/MediaPlayerService.kt:507-512 | on an empty queue nothing happens; the queue, shuffle, repeat and prefs are kept |
| PlayerService.CompletedStep | app/src/main/java/com/first/meragaana/service/MediaPlayerService.kt:468-482 | `onSongCompleted`: REPEAT_OFF and REPEAT_ALL take the next step; REPEAT_ONE seeks to 0 and plays; any other mode does nothing (its cases are `CompletionRules` and `CompletionAtEndStops`) |
| PlayerService.ShuffleNextPicksAnotherIndex | app/src/main/java/com/first/meragaana/service/MediaPlayerService.kt:488-496 | shuffle-next stays put exactly when the queue holds one song and it is under the cursor; otherwise it moves to another index of the queue, makes that song current and plays it from 0 |
| PlayerService.NextFromLastIndex | app/src/main/java/com/first/meragaana/service/MediaPlayerService.kt:497-499 | without shuffle, next from the last index wraps to 0 under REPEAT_ALL and does nothing under any other repeat mode |
| PlayerService.NextStepsByOne | app/src/main/java/com/first/meragaana/service/MediaPlayerService.kt:500-504 | elsewhere non-shuffle next adds one to the cursor and plays that song; if the index is past the queue, the cursor still moves but `playSong` rejects the song |
| PlayerService.NextAfterShrinkLeavesQueue | app/src/main/java/com/first/meragaana/service/MediaPlayerService.kt:264-266 | `setQueue` keeps a stale cursor: after shrinking [a,b,c] to [a] with the cursor at 2, next sets the cursor to 3, outside the queue, and the current song stays |
| PlayerService.StepsKeepCursorSane | app/src/main/java/com/first/meragaana/service/MediaPlayerService.kt:484-512 | while the queue is unchanged, play, next, previous and completion keep -1 <= cursor < |queue|; a next or previous that moves the cursor lands on a song of the queue and makes it current |
| PlayerService.PreviousIgnoresShuffle | app/src/main/java/com/first/meragaana/service/MediaPlayerService.kt:507-512 | previous is the same whether shuffle is on or off |
| PlayerService.PreviousMoves | app/src/main/java/com/first/meragaana/service/MediaPlayerService.kt:507-512 | previous goes from cursor>0 to cursor-1 and from 0 or -1 to the last song; the target is in the queue exactly when the old cursor was at most |queue| |
| PlayerService.CompletionRules | app/src/main/java/com/first/meragaana/service/MediaPlayerService.kt:468-482 | REPEAT_ONE restarts the same song from 0 and plays it, keeping the cursor and queue; REPEAT_OFF and REPEAT_ALL both do exactly what next does |
| PlayerService.CompletionAtEndStops | app/src/main/java/com/first/meragaana/service/MediaPlayerService.kt:468-505 | with REPEAT_OFF and no shuffle, completing the last song of the queue changes nothing |
| PlayerService.NextAfterPickIgnoresPick | app/src/main/java/com/first/meragaana/service/MediaPlayerService.kt:214-262 | after `playSong(k)` on a fresh cursor, next goes to index 0 and its song, whatever k was |
| PlayerService.SaveStep | app/src/main/java/com/first/meragaana/service/MediaPlayerService.kt:167-184 | saving changes only the prefs, and without a current song it changes nothing |
| PlayerService.SavedPrefs | app/src/main/java/com/first/meragaana/service/MediaPlayerService.kt:171-180 | the seven puts for the current song, none without one; `SaveThenRead` reads each of them back |
| PlayerService.StringAt | app/src/main/java/com/first/meragaana/service/MediaPlayerService.kt:187-188 | `getString` finds a value exactly when the key holds a string, and misses exactly when the key is absent |
| PlayerService.LongAt | app/src/main/java/com/first/meragaana/service/MediaPlayerService.kt:206 | `getLong` finds a value exactly when the key holds a long, and misses exactly when the key is absent |
| PlayerService.BoolAt | app/src/main/java/com/first/meragaana/service/MediaPlayerService.kt:189 | `getBoolean` finds a value exactly when the key holds a boolean, and misses exactly when the key is absent |
| PlayerService.ResumedSong | app/src/main/java/com/first/meragaana/service/MediaPlayerService.kt:192-204 | the rebuilt song has duration 0 and path "", and the defaults of `AudioFile` for everything else |
| PlayerService.ReadSavedState | app/src/main/java/com/first/meragaana/service/MediaPlayerService.kt:186-212 | a restore needs both the id and the uri; with no saved id and no exception, nothing is restored; the song it restores has duration 0 and path "" |
| PlayerService.RestoreStep | app/src/main/java/com/first/meragaana/service/MediaPlayerService.kt:186-212 | a successful read always sets a current song; otherwise nothing changes; the queue, cursor and prefs are never touched |
| PlayerService.SaveThenRead | app/src/main/java/com/first/meragaana/service/MediaPlayerService.kt:167-212 | the state read back after a save is the current song's id, uri, title, artist and album, with the saved position and playing flag |
| PlayerService.KeysDistinct | app/src/main/java/com/first/meragaana/service/MediaPlayerService.kt:559-565 | the seven preference keys are pairwise different |
| PlayerService.RestoreOnFreshServiceOnlySetsSong | app/src/main/java/com/first/meragaana/service/MediaPlayerService.kt:70-78 | on a fresh service a restore only sets the current song; the cursor stays -1, outside the queue |
| PlayerService.RestoreUsesPositionAsIndex | app/src/main/java/com/first/meragaana/service/MediaPlayerService.kt:210 | the saved position, cast to Int, is used as a queue index: when it falls inside the queue, that song becomes current |
| PlayerService.ResumeAfterRestart | app/src/main/java/com/first/meragaana/service/MediaPlayerService.kt:460-466 | a service destroyed with a current song resumes that song (id, uri, title, artist, album) when it is created again |
| PlayerService.MediaPlayerService.constructor | app/src/main/java/com/first/meragaana/service/MediaPlayerService.kt:30-41 | empty queue, cursor -1, no song, not playing, shuffle off, REPEAT_OFF, the stored prefs |
| PlayerService.MediaPlayerService.OnCreate | app/src/main/java/com/first/meragaana/service/MediaPlayerService.kt:70-78 | the new state is the restore step, and it reports an exception exactly when reading the prefs throws |
| PlayerService.MediaPlayerService.OnDestroy | app/src/main/java/com/first/meragaana/service/MediaPlayerService.kt:460-466 | the new state is the save step |
| PlayerService.MediaPlayerService.SavePlaybackState | app/src/main/java/com/first/meragaana/service/MediaPlayerService.kt:167-184 | the puts, one after another, give the save step's prefs |
| PlayerService.MediaPlayerService.RestorePlaybackState | app/src/main/java/com/first/meragaana/service/MediaPlayerService.kt:186-212 | the new state is the restore step; it throws exactly when reading the prefs does |
| PlayerService.MediaPlayerService.PlaySong | app/src/main/java/com/first/meragaana/service/MediaPlayerService.kt:214-262 | the new state is the play step |
| PlayerService.MediaPlayerService.SetQueue | app/src/main/java/com/first/meragaana/service/MediaPlayerService.kt:264-266 | only the queue changes |
| PlayerService.MediaPlayerService.GetQueue | app/src/main/java/com/first/meragaana/service/MediaPlayerService.kt:268 | returns the queue |
| PlayerService.MediaPlayerService.GetCurrentSong | app/src/main/java/com/first/meragaana/service/MediaPlayerService.kt:270-271 | `queue.getOrNull(currentSongPosition)`: a song exactly when the cursor is in the queue, and then the song under it |
| PlayerService.MediaPlayerService.GetCurrentPosition | app/src/main/java/com/first/meragaana/service/MediaPlayerService.kt:290-294 | the engine position |
| PlayerService.MediaPlayerService.Play | app/src/main/java/com/first/meragaana/service/MediaPlayerService.kt:273-277 | only the playing flag changes, to true |
| PlayerService.MediaPlayerService.Pause | app/src/main/java/com/first/meragaana/service/MediaPlayerService.kt:279-283 | only the playing flag changes, to false |
| PlayerService.MediaPlayerService.SeekTo | app/src/main/java/com/first/meragaana/service/MediaPlayerService.kt:285-288 | only the position changes |
| PlayerService.MediaPlayerService.SetShuffleEnabled | app/src/main/java/com/first/meragaana/service/MediaPlayerService.kt:514-517 | only the shuffle flag changes |
| PlayerService.MediaPlayerService.SetRepeatMode | app/src/main/java/com/first/meragaana/service/MediaPlayerService.kt:519-522 | only the repeat mode changes, to any int |
| PlayerService.MediaPlayerService.OnPlaybackEnded | app/src/main/java/com/first/meragaana/service/MediaPlayerService.kt:140-145 | STATE_ENDED stops playback, then applies the completion step |
| PlayerService.MediaPlayerService.OnSongCompleted | app/src/main/java/com/first/meragaana/service/MediaPlayerService.kt:468-482 | the new state is the completion step |
| PlayerService.MediaPlayerService.PlayNextSong | app/src/main/java/com/first/meragaana/service/MediaPlayerService.kt:484-505 | the new state is the next step: shuffle draws from `ShuffleCandidates`, otherwise the cursor advances or wraps |
| PlayerService.MediaPlayerService.PlayPreviousSong | app/src/main/java/com/first/meragaana/service/MediaPlayerService.kt:507-512 | the new state is the previous step |
| PlayerService.MediaPlayerService.SkipToNext | app/src/main/java/com/first/meragaana/service/MediaPlayerService.kt:524-545 | has the same effect as `playNextSong` |
| PlayerService.MediaPlayerService.SkipToPrevious | app/src/main/java/com/first/meragaana/service/MediaPlayerService.kt:547-552 | has the same effect as `playPreviousSong` |
| LegacyService.CoerceIn | app/src/main/java/com/first/meragaana/service/MusicService.kt:83 | `coerceIn(lo, hi)`: the result lies in [lo,hi]; it is x when x is inside, lo below and hi above |
| LegacyService.RemoveFirst | app/src/main/java/com/first/meragaana/service/MusicService.kt:154-156 | `MutableList.remove`: its contents are stated by `RemoveFirstAbsent`, `RemoveFirstCutsFirst`, `RemoveFirstRemovesOne` and `AddThenRemove` |
| LegacyService.FirstIndex | app/src/main/java/com/first/meragaana/service/MusicService.kt:154-156 | the first occurrence of a listener in the list |
| LegacyService.RemoveFirstAbsent | app/src/main/java/com/first/meragaana/service/MusicService.kt:154-156 | removing an absent listener leaves the list unchanged |
| LegacyService.RemoveFirstCutsFirst | app/src/main/java/com/first/meragaana/service/MusicService.kt:154-156 | `remove` cuts out exactly the first occurrence |
| LegacyService.RemoveFirstRemovesOne | app/src/main/java/com/first/meragaana/service/MusicService.kt:154-156 | `remove` takes exactly one copy of the listener out of the multiset |
| LegacyService.AddThenRemove | app/src/main/java/com/first/meragaana/service/MusicService.kt:150-156 | adding a new listener and then removing it restores the list |
| LegacyService.PlayCurrentStep | app/src/main/java/com/first/meragaana/service/MusicService.kt:89-103 | an empty playlist changes nothing; otherwise the song at the index becomes current and the index stays |
| LegacyService.SetPlaylistStep | app/src/main/java/com/first/meragaana/service/MusicService.kt:81-85 | the playlist is replaced; on an empty list nothing else changes (coerceIn throws); otherwise the index is the start index coerced into the list, and its song is current |
| LegacyService.NotifyStep | app/src/main/java/com/first/meragaana/service/MusicService.kt:158-160 | every registered listener is invoked once, in registration order |
| LegacyService.NextIndex | app/src/main/java/com/first/meragaana/service/MusicService.kt:119-123 | under shuffle the index becomes the random draw, any index of the playlist including the current one (stated by `ShuffleGoesToDraw` and `ShuffleMayRepeat`); else the index plus one modulo the playlist size (stated by `NextWrapsWhateverRepeat`) |
| LegacyService.PreviousIndex | app/src/main/java/com/first/meragaana/service/MusicService.kt:130-136 | under shuffle the index becomes the random draw (stated by `ShuffleGoesToDraw`); else the index minus one, or the last index from 0 (stated by `PreviousWraps`) |
| LegacyService.PlayNextStep | app/src/main/java/com/first/meragaana/service/MusicService.kt:116-125 | an empty playlist changes nothing; otherwise the index moves to `NextIndex` and that song is played; `StepsKeepIndexValid`, `NextWrapsWhateverRepeat` and, under shuffle, `ShuffleGoesToDraw` state the result |
| LegacyService.PlayPreviousStep | app/src/main/java/com/first/meragaana/service/MusicService.kt:127-138 | as next, with `PreviousIndex`; `StepsKeepIndexValid`, `PreviousWraps` and, under shuffle, `ShuffleGoesToDraw` state the result |
| LegacyService.CompletionStep | app/src/main/java/com/first/meragaana/service/MusicService.kt:57-63 | ONE replays the current song, ALL plays next, NONE plays next unless at the last song (stated by `CompletionRules`) |
| LegacyService.StepsKeepIndexValid | app/src/main/java/com/first/meragaana/service/MusicService.kt:89-138 | play, next, previous and completion keep the index inside the playlist, or 0 when it is empty |
| LegacyService.NextWrapsWhateverRepeat | app/src/main/java/com/first/meragaana/service/MusicService.kt:116-125 | without shuffle, next wraps from the last song to 0 under every repeat mode, and otherwise adds one; the song at the new index becomes current |
| LegacyService.PreviousWraps | app/src/main/java/com/first/meragaana/service/MusicService.kt:127-138 | without shuffle, previous subtracts one and wraps from 0 to the last song |
| LegacyService.ShuffleGoesToDraw | app/src/main/java/com/first/meragaana/service/MusicService.kt:116-138 | with shuffle on and any draw in [0, size), next and previous both move the index to the draw and play the song there |
| LegacyService.ShuffleMayRepeat | app/src/main/java/com/first/meragaana/service/MusicService.kt:116-138 | a random draw equal to the current index makes shuffle next and previous stay on the same song |
| LegacyService.CompletionRules | app/src/main/java/com/first/meragaana/service/MusicService.kt:57-63 | ONE replays the same index, ALL does what next does, and NONE advances except at the last song, where it stops |
| LegacyService.MusicService.constructor | app/src/main/java/com/first/meragaana/service/MusicService.kt:26-33 | empty playlist, index 0, no song, shuffle off, repeat NONE, no listeners |
| LegacyService.MusicService.SetPlaylist | app/src/main/java/com/first/meragaana/service/MusicService.kt:81-85 | the new state is the set-playlist step; it throws exactly on an empty list |
| LegacyService.MusicService.GetCurrentAudio | app/src/main/java/com/first/meragaana/service/MusicService.kt:87 | the current song |
| LegacyService.MusicService.PlayCurrentSong | app/src/main/java/com/first/meragaana/service/MusicService.kt:89-103 | the new state is the play-current step |
| LegacyService.MusicService.OnPrepared | app/src/main/java/com/first/meragaana/service/MusicService.kt:53-56 | starts playing and notifies every listener once |
| LegacyService.MusicService.TogglePlayPause | app/src/main/java/com/first/meragaana/service/MusicService.kt:105-114 | flips the playing flag and notifies every listener once |
| LegacyService.MusicService.PlayNext | app/src/main/java/com/first/meragaana/service/MusicService.kt:116-125 | the new state is the next step |
| LegacyService.MusicService.PlayPrevious | app/src/main/java/com/first/meragaana/service/MusicService.kt:127-138 | the new state is the previous step |
| LegacyService.MusicService.OnCompletion | app/src/main/java/com/first/meragaana/service/MusicService.kt:57-63 | stops playing, then applies the completion step |
| LegacyService.MusicService.IsPlaying | app/src/main/java/com/first/meragaana/service/MusicService.kt:140 | the playing flag |
| LegacyService.MusicService.GetCurrentPosition | app/src/main/java/com/first/meragaana/service/MusicService.kt:142 | the engine position |
| LegacyService.MusicService.SeekTo | app/src/main/java/com/first/meragaana/service/MusicService.kt:146-148 | only the position changes |
| LegacyService.MusicService.AddPlaybackStateListener | app/src/main/java/com/first/meragaana/service/MusicService.kt:150-152 | appends the listener |
| LegacyService.MusicService.RemovePlaybackStateListener | app/src/main/java/com/first/meragaana/service/MusicService.kt:154-156 | a loop that removes the first occurrence, as `RemoveFirst` does |
| LegacyService.MusicService.NotifyPlaybackStateChanged | app/src/main/java/com/first/meragaana/service/MusicService.kt:158-160 | a loop that calls each listener once, in order |
| ViewModel.NextRepeatMode | app/src/main/java/com/first/meragaana/viewmodel/PlayerViewModel.kt:207-216 | the result is always a valid mode; an invalid mode goes to OFF; a valid mode always changes |
| ViewModel.RepeatCycle | app/src/main/java/com/first/meragaana/viewmodel/PlayerViewModel.kt:207-216 | toggling three times returns to the start, passing through all three modes |
| ViewModel.PolledPosition | app/src/main/java/com/first/meragaana/viewmodel/PlayerViewModel.kt:138-156 | the position after polling is the start value or one of the reported positions, and the last report when that tick had one |
| ViewModel.PolledDuration | app/src/main/java/com/first/meragaana/viewmodel/PlayerViewModel.kt:147-151 | the polled duration is the start value or a positive reported duration |
| ViewModel.PolledDurationStaysPositive | app/src/main/java/com/first/meragaana/viewmodel/PlayerViewModel.kt:147-151 | once the duration is positive, polling never makes it non-positive |
| ViewModel.PolledDurationIgnoresNonPositive | app/src/main/java/com/first/meragaana/viewmodel/PlayerViewModel.kt:147-151 | if no tick reports a positive duration, the duration keeps its start value |
| ViewModel.PlayerViewModel.constructor | app/src/main/java/com/first/meragaana/viewmodel/PlayerViewModel.kt:21-43 | initial flows: no song, paused, 0, 0, empty queue, -1, shuffle off, REPEAT_OFF; unbound |
| ViewModel.PlayerViewModel.OnServiceConnected | app/src/main/java/com/first/meragaana/viewmodel/PlayerViewModel.kt:50-75 | binds the service and mirrors its song, playing flag, queue, cursor, shuffle and repeat, with position 0 and the reported duration (0 when absent) |
| ViewModel.PlayerViewModel.OnServiceDisconnected | app/src/main/java/com/first/meragaana/viewmodel/PlayerViewModel.kt:77-81 | unbinds and keeps the mirrored state |
| ViewModel.PlayerViewModel.UpdatePlayerState | app/src/main/java/com/first/meragaana/viewmodel/PlayerViewModel.kt:123-136 | the mirror takes the service's song, playing flag, position, duration (0 when absent), queue, cursor, shuffle and repeat |
| ViewModel.PlayerViewModel.OnPlaybackStateChanged | app/src/main/java/com/first/meragaana/viewmodel/PlayerViewModel.kt:60-67 | only the playing flag changes |
| ViewModel.PlayerViewModel.OnSongChanged | app/src/main/java/com/first/meragaana/viewmodel/PlayerViewModel.kt:69-73 | sets the song, the duration (0 when absent) and the position 0 |
| ViewModel.PlayerViewModel.PlaySong | app/src/main/java/com/first/meragaana/viewmodel/PlayerViewModel.kt:98-121 | a position outside the view model's queue changes nothing, here or in the service; otherwise the service takes the play step, and the view model records the position as the cursor, that queue song as current and playing; the position resets when the service announced the song, and a positive duration reported after the delay wins only when a service is bound (without one the duration query is null and the duration is kept) |
| ViewModel.PlayerViewModel.PollPositionUpdates | app/src/main/java/com/first/meragaana/viewmodel/PlayerViewModel.kt:138-156 | without a service nothing changes; otherwise position and duration follow the polled values |
| ViewModel.PlayerViewModel.PlayPause | app/src/main/java/com/first/meragaana/viewmodel/PlayerViewModel.kt:163-175 | flips the mirrored playing flag, and pauses or plays the service |
| ViewModel.PlayerViewModel.SeekTo | app/src/main/java/com/first/meragaana/viewmodel/PlayerViewModel.kt:177-182 | sets the mirrored position and seeks the service |
| ViewModel.PlayerViewModel.UpdateCurrentSongInfo | app/src/main/java/com/first/meragaana/viewmodel/PlayerViewModel.kt:218-230 | copies the song, playing flag, position, cursor, shuffle and repeat from the service, and the reported duration (0 when absent), keeping the queue |
| ViewModel.PlayerViewModel.Next | app/src/main/java/com/first/meragaana/viewmodel/PlayerViewModel.kt:184-190 | the service takes the next step, then the whole mirror except the queue is re-read from it, as `updateCurrentSongInfo` does |
| ViewModel.PlayerViewModel.Previous | app/src/main/java/com/first/meragaana/viewmodel/PlayerViewModel.kt:192-198 | the service takes the previous step, then the whole mirror except the queue is re-read from it, as `updateCurrentSongInfo` does |
| ViewModel.ToggleShuffleOf | app/src/main/java/com/first/meragaana/viewmodel/PlayerViewModel.kt:200-205 | the mirror after `toggleShuffle`: only the shuffle flag changes, and it is negated |
| ViewModel.ToggleShuffleTwice | app/src/main/java/com/first/meragaana/viewmodel/PlayerViewModel.kt:200-205 | toggling shuffle twice gives back the mirror it started from |
| ViewModel.PlayerViewModel.ToggleShuffle | app/src/main/java/com/first/meragaana/viewmodel/PlayerViewModel.kt:200-205 | the mirror becomes `ToggleShuffleOf` of the old one, and the new flag is set on the service |
| ViewModel.PlayerViewModel.ToggleRepeatMode | app/src/main/java/com/first/meragaana/viewmodel/PlayerViewModel.kt:207-216 | sets the next repeat mode, mirrored and on the service |
| ViewModel.PlayerViewModel.SetQueue | app/src/main/java/com/first/meragaana/viewmodel/PlayerViewModel.kt:232-238 | sets the queue, mirrored and on the service |
| Scanner.ParentPath | app/src/main/java/com/first/meragaana/utils/AudioScanner.kt:75 | `File.getParent`: none for a path without a separator or for the root alone; "/" for a file directly under the root; otherwise the prefix before the last '/' |
| Scanner.FileName | app/src/main/java/com/first/meragaana/utils/AudioScanner.kt:75 | `File.getName`: a suffix of the path that contains no '/' |
| Scanner.ParentThenName | app/src/main/java/com/first/meragaana/utils/AudioScanner.kt:75 | a normalised path is its parent, a separator unless the parent is "/", and its name |
| Scanner.SongsInMembers | app/src/main/java/com/first/meragaana/utils/AudioScanner.kt:75 | a group's songs are exactly the input's songs with that key, in input order |
| Scanner.FirstWith | app/src/main/java/com/first/meragaana/utils/AudioScanner.kt:75 | the index of the first scanned song with a key: every earlier song has another key, and the song there has this key, or the index is the scan length when none has it |
| Scanner.GroupBy | app/src/main/java/com/first/meragaana/utils/AudioScanner.kt:75 | `groupBy` into an insertion-ordered map, one `getOrPut(...).add` per song; `GroupByFacts` and `GroupByOrder` state what it returns |
| Scanner.GroupByFacts | app/src/main/java/com/first/meragaana/utils/AudioScanner.kt:75 | `groupBy`: groups with pairwise distinct keys, one for the key of every input song; each group is non-empty and holds exactly that key's songs in input order; the group sizes add up to the input size |
| Scanner.GroupByOrder | app/src/main/java/com/first/meragaana/utils/AudioScanner.kt:75 | the groups come in order of first occurrence: each group's key occurs in the scan, and earlier groups have keys that occur first earlier |
| Scanner.ToPlaylists | app/src/main/java/com/first/meragaana/utils/AudioScanner.kt:76-82 | one playlist per group, in the same order, with the group's key as folder path, the last component of that path as name, and the group's songs |
| Scanner.DropEmpty | app/src/main/java/com/first/meragaana/utils/AudioScanner.kt:83 | keeps only non-empty playlists of the input, and is the identity when none is empty |
| Scanner.Unsorted | app/src/main/java/com/first/meragaana/utils/AudioScanner.kt:75-83 | the unsorted playlists; `UnsortedFacts` and `UnsortedInScanOrder` state them |
| Scanner.UnsortedInScanOrder | app/src/main/java/com/first/meragaana/utils/AudioScanner.kt:75-83 | before sorting, the playlists are in strictly increasing order of where their folders first occur in the scan |
| Scanner.InsertSorted | app/src/main/java/com/first/meragaana/utils/AudioScanner.kt:84 | inserting into a name-sorted list keeps it sorted |
| Scanner.InsertStable | app/src/main/java/com/first/meragaana/utils/AudioScanner.kt:84 | inserting leaves the relative order of playlists with the same name unchanged |
| Scanner.SortSorted | app/src/main/java/com/first/meragaana/utils/AudioScanner.kt:84 | the sort orders by folder name |
| Scanner.SortStable | app/src/main/java/com/first/meragaana/utils/AudioScanner.kt:84 | `sortedBy` is stable: playlists with the same name keep their order |
| Scanner.SortDistinct | app/src/main/java/com/first/meragaana/utils/AudioScanner.kt:84 | sorting keeps folder paths pairwise distinct |
| Scanner.SortByName | app/src/main/java/com/first/meragaana/utils/AudioScanner.kt:84 | `sortedBy { it.folderName }`: a permutation of its input (`SortSorted` and `SortStable` state the order) |
| Scanner.SortKeepsSameNameOrder | app/src/main/java/com/first/meragaana/utils/AudioScanner.kt:84 | sorting keeps playlists of one name in the order of first occurrence of their folders |
| Scanner.FolderPlaylists | app/src/main/java/com/first/meragaana/utils/AudioScanner.kt:72-85 | `getFolderPlaylists` over the scanned songs; the `FolderPlaylists*` lemmas state what it promises |
| Scanner.FolderPlaylistsAreFolders | app/src/main/java/com/first/meragaana/utils/AudioScanner.kt:72-85 | the folder paths are pairwise distinct; each playlist is non-empty, is named after the last component of its folder path, and holds exactly that folder's songs in scan order; every song in a playlist lies in its folder |
| Scanner.FolderPlaylistsKeepCount | app/src/main/java/com/first/meragaana/utils/AudioScanner.kt:72-85 | the playlists hold as many songs as the input, so none is lost or duplicated |
| Scanner.FolderPlaylistsPartition | app/src/main/java/com/first/meragaana/utils/AudioScanner.kt:72-85 | every scanned song lies in exactly one playlist |
| Scanner.SongInItsFolder | app/src/main/java/com/first/meragaana/utils/AudioScanner.kt:72-85 | gives the one playlist that holds a given song |
| Scanner.FolderPlaylistsOrder | app/src/main/java/com/first/meragaana/utils/AudioScanner.kt:72-85 | the result is sorted by folder name; playlists of one name come in the order in which their folders first occur in the scan, and in the same order as before the sort |
| Scanner.NoParentGoesToEmptyFolder | app/src/main/java/com/first/meragaana/utils/AudioScanner.kt:75 | a song whose path has no parent falls into the playlist with folder path "" |
| Adapters.FormatDuration | app/src/main/java/com/first/meragaana/adapters/AudioAdapter.kt:49-53 | `"%d:%02d"` of the truncated minutes and seconds; stated by the `FormatDuration*` lemmas |
| Adapters.FormatDurationFields | app/src/main/java/com/first/meragaana/adapters/AudioAdapter.kt:49-53 | for a non-negative duration the text is the whole minutes, ':' and the seconds padded to two digits |
| Adapters.FormatDurationShape | app/src/main/java/com/first/meragaana/adapters/AudioAdapter.kt:49-53 | the text has ':' third from the end, and the unpadded minutes before it |
| Adapters.FormatDurationReadsBack | app/src/main/java/com/first/meragaana/adapters/AudioAdapter.kt:49-53 | the text reads back as the whole seconds of the duration |
| Adapters.FormatDurationNegative | app/src/main/java/com/first/meragaana/adapters/AudioAdapter.kt:49-53 | truncating division prints -61000 ms as "-1:-1" and -999 ms as "0:00" |
| Adapters.RowOf | app/src/main/java/com/first/meragaana/adapters/AudioAdapter.kt:31-40 | the row shows the song's title and artist, and a click passes the song |
| Adapters.RowShowsDuration | app/src/main/java/com/first/meragaana/adapters/AudioAdapter.kt:31-40 | the row's duration text reads back as the song's whole seconds |
| Adapters.AudioAdapter.constructor | app/src/main/java/com/first/meragaana/adapters/AudioAdapter.kt:11-14 | the adapter holds the list it was given |
| Adapters.AudioAdapter.GetItemCount | app/src/main/java/com/first/meragaana/adapters/AudioAdapter.kt:42 | the size of the list |
| Adapters.AudioAdapter.UpdateData | app/src/main/java/com/first/meragaana/adapters/AudioAdapter.kt:44-47 | replaces the list, and the item count follows |
| Adapters.AudioAdapter.BindRow | app/src/main/java/com/first/meragaana/adapters/AudioAdapter.kt:31-40 | the row at a position shows that position's song |
| UiAdapters.RowView | app/src/main/java/com/first/meragaana/ui/adapters/SongAdapter.kt:46-72 | the row shows the song's title and artist; a click passes the song and its position; the highlight background and text colour appear exactly at the currently playing position |
| UiAdapters.AtMostOneHighlighted | app/src/main/java/com/first/meragaana/ui/adapters/SongAdapter.kt:36-40 | at most one row of a list is highlighted |
| UiAdapters.OnlyNotifiedRowsChange | app/src/main/java/com/first/meragaana/ui/adapters/SongAdapter.kt:20-25 | moving the playing position from a to b changes only rows a and b, which are the two rows it notifies |
| UiAdapters.AreItemsTheSame | app/src/main/java/com/first/meragaana/ui/adapters/SongAdapter.kt:76-78 | two songs are the same item when their ids agree (related to contents by `ContentsImplyItems`) |
| UiAdapters.AreContentsTheSame | app/src/main/java/com/first/meragaana/ui/adapters/SongAdapter.kt:80-82 | the data class's structural equality (related to items by `ContentsImplyItems`) |
| UiAdapters.ContentsImplyItems | app/src/main/java/com/first/meragaana/ui/adapters/SongAdapter.kt:76-82 | equal contents imply the same item, and the same item with a different title has different contents |
| UiAdapters.SongAdapter.constructor | app/src/main/java/com/first/meragaana/ui/adapters/SongAdapter.kt:18 | empty list, nothing playing (-1), nothing notified |
| UiAdapters.SongAdapter.SubmitList | app/src/main/java/com/first/meragaana/ui/adapters/SongAdapter.kt:14-16 | replaces the list and keeps the playing position |
| UiAdapters.SongAdapter.SetCurrentlyPlaying | app/src/main/java/com/first/meragaana/ui/adapters/SongAdapter.kt:20-25 | records the new position and notifies the old position, then the new one |
| UiAdapters.SongAdapter.Bind | app/src/main/java/com/first/meragaana/ui/adapters/SongAdapter.kt:36-40 | the row for a position is `RowView` of that position's song and the playing position |
| UiAdapters.SongAdapter.NothingHighlightedAtFirst | app/src/main/java/com/first/meragaana/ui/adapters/SongAdapter.kt:18 | before any call to `setCurrentlyPlaying`, no row is highlighted |
| PlayerScreen.FormatDuration | app/src/main/java/com/first/meragaana/ui/player/PlayerFragment.kt:166-171 | `"%02d:%02d"` of the truncated minutes and seconds; stated by the `FormatDuration*` lemmas and `FormatsAgreeAfterTenMinutes` |
| PlayerScreen.FormatDurationFields | app/src/main/java/com/first/meragaana/ui/player/PlayerFragment.kt:166-171 | for a non-negative duration the text is the minutes and the seconds, each padded to two digits |
| PlayerScreen.FormatDurationShape | app/src/main/java/com/first/meragaana/ui/player/PlayerFragment.kt:166-171 | the text has at least five characters, with ':' third from the end |
| PlayerScreen.FormatDurationReadsBack | app/src/main/java/com/first/meragaana/ui/player/PlayerFragment.kt:166-171 | the text reads back as the whole seconds of the duration |
| PlayerScreen.FormatsAgreeAfterTenMinutes | app/src/main/java/com/first/meragaana/ui/player/PlayerFragment.kt:166-171 | the player's text is the list's text with a leading "0" below ten minutes, and the same text from ten minutes on |
| PlayerScreen.MinutesAreNotCapped | app/src/main/java/com/first/meragaana/ui/player/PlayerFragment.kt:166-171 | minutes are never folded into hours: everything before ":ss" is the digits of the whole minutes |
| PlayerScreen.TitleText | app/src/main/java/com/first/meragaana/ui/player/PlayerFragment.kt:98 | the song's title, or "No song playing" (stated by `SongTextFallbacks`) |
| PlayerScreen.ArtistText | app/src/main/java/com/first/meragaana/ui/player/PlayerFragment.kt:99 | the song's artist, or "Unknown Artist" (stated by `SongTextFallbacks`) |
| PlayerScreen.RepeatAlpha | app/src/main/java/com/first/meragaana/ui/player/PlayerFragment.kt:150-154 | 1.0 for REPEAT_ONE, 0.85 for REPEAT_ALL, 0.7 otherwise, in hundredths (stated by `ButtonsFollowState`) |
| PlayerScreen.Render | app/src/main/java/com/first/meragaana/ui/player/PlayerFragment.kt:91-160 | the collectors of `observeViewModel` applied to one view-model state; `SongTextFallbacks`, `ButtonsFollowState`, `RepeatButtonAfterToggle`, `SeekBarFits` and `SeekBarWrapsBeyondInt` state it |
| PlayerScreen.SongTextFallbacks | app/src/main/java/com/first/meragaana/ui/player/PlayerFragment.kt:98-99 | with no song the screen shows "No song playing" and "Unknown Artist"; otherwise the song's title and artist |
| PlayerScreen.ButtonsFollowState | app/src/main/java/com/first/meragaana/ui/player/PlayerFragment.kt:113-154 | play/pause is selected exactly while playing and shuffle exactly while it is enabled; repeat is selected exactly when the mode is not OFF; the three valid modes have three different alphas |
| PlayerScreen.RepeatButtonAfterToggle | app/src/main/java/com/first/meragaana/ui/player/PlayerFragment.kt:149-154 | when the view model toggles a valid repeat mode, the button is selected if and only if the new mode is not OFF |
| PlayerScreen.SeekBarFits | app/src/main/java/com/first/meragaana/ui/player/PlayerFragment.kt:120-131 | when 0 <= position <= duration fits in an Int, the progress lies between 0 and the max, and both time texts read back as the whole seconds |
| PlayerScreen.SeekBarWrapsBeyondInt | app/src/main/java/com/first/meragaana/ui/player/PlayerFragment.kt:129-130 | for a duration of Int.MAX_VALUE+1 ms, the Int passed to `seekBar.max` by `duration.toInt()` is Int.MIN_VALUE |

## Left out

- The playback engines, ExoPlayer and `MediaPlayer`, are reduced to a playing flag and a position. `prepare`, buffering, errors, the re-initialisation of a null player, and the engine's own state machine are not modelled. The engine's duration and song position enter the view model as parameters.
- `Random.nextInt` is a parameter, `random`. Wherever the source draws a number, the parameter is required to be in the range the source draws from.
- The media session, notifications, the `onStartCommand` intent actions, the media-session callbacks and the `Binder` are left out. They only forward to operations that are modelled (play, pause, next, previous, seek).
- `updatePlaybackState` and `updateMediaSession` only publish state to the media session, so they are left out.
- The two Kotlin callback listeners of `MediaPlayerService` (`setOnPlaybackStateChangeListener`, `setOnSongChangeListener`) are modelled by the view-model handlers they are bound to: `OnPlaybackStateChanged` and `OnSongChanged`.
- Coroutines, `delay`, `StateFlow` emission and the lifecycle scopes are left out. The position-update loop is a sequence of polled samples. Each flow is mirrored as a field.
- `PlayerViewModel.onCleared`, `bindService` and the unbinding are left out. Service binding is modelled only by `OnServiceConnected` and `OnServiceDisconnected`.
- The asynchrony of `SharedPreferences.apply()` is left out: the store is a map that the writes update at once.
- `AudioScanner.getAllAudioFiles` is a `MediaStore` query, so it is left out. Folder playlists are computed from a given list of songs.
- Scanner.ParentPath: `File.absolutePath` and path normalisation are not modelled. Paths are assumed to be absolute or relative as given, and `ParentThenName` requires a path without "//".
- Scanner.NameLe: `sortedBy` compares Strings in UTF-16 code units. The model compares `char` values, which agree for characters of the Basic Multilingual Plane.
- Numbers.ParseLong: `toLong` also accepts non-ASCII decimal digits. The model accepts only an optional sign followed by ASCII digits.
- Numbers.Pad2: `String.format` is assumed to use a locale with ASCII digits.
- PlayerScreen.Render: button alphas are floats in the source and are hundredths (100, 85, 70) in the model. The seek bar's progress and max are `Long.toInt()` of the values, which are written out.
- PlayerService.MediaPlayerService.PlayNextSong: the cursor is a Kotlin `Int`. Its 32-bit wrap-around when incremented past `Int.MAX_VALUE` is not modelled, because no queue ever reaches that length.
- Long overflow of the millisecond arithmetic is not modelled. The formatters divide only, so they cannot overflow.
- `ListAdapter.submitList` is modelled as replacing the list. The asynchronous diff that `DiffUtil` runs is left out; its item and content callbacks are modelled.
- Album art loading (Glide, `setImageResource`) and view inflation are left out.
- `MusicService` has no setters for shuffle and repeat, so they keep their initial values. Their branches are modelled anyway, since the fields exist.
- `MainActivity`, `HomeFragment`, `QueueAdapter` and `FolderPlaylistAdapter` are outside the core and are not part of this model.
