/**
 * `SongAdapter`: the song list that highlights the row now playing, and the
 * `DiffUtil` rules `submitList` uses to match old and new items.
 */
module UiAdapters {
  import opened Media

  /** Background and text colour of a row (the colour resources). */
  datatype Background = CurrentlyPlayingBackground | Transparent
  datatype TextColor = CurrentlyPlayingText | NormalText

  /** What one bound row shows, and the arguments its click passes on. */
  datatype SongRow = SongRow(
    title: string,
    artist: string,
    background: Background,
    titleColor: TextColor,
    clickSong: AudioFile,
    clickPosition: int)

  /** `onBindViewHolder` plus `SongViewHolder.bind`: the row at `position` is
      highlighted iff it is the currently playing position. */
  function RowView(song: AudioFile, position: int, currentlyPlaying: int): (r: SongRow)
    ensures r.title == song.title && r.artist == song.artist
    ensures r.clickSong == song && r.clickPosition == position
    ensures r.background == CurrentlyPlayingBackground <==> position == currentlyPlaying
    ensures r.titleColor == CurrentlyPlayingText <==> position == currentlyPlaying
  {
    var playing := position == currentlyPlaying;
    SongRow(
      song.title, song.artist,
      if playing then CurrentlyPlayingBackground else Transparent,
      if playing then CurrentlyPlayingText else NormalText,
      song, position)
  }

  predicate Highlighted(r: SongRow) { r.background == CurrentlyPlayingBackground }

  /** At most one row is highlighted, whatever the list and the current position. */
  lemma AtMostOneHighlighted(items: seq<AudioFile>, current: int, i: int, j: int)
    requires 0 <= i < |items| && 0 <= j < |items|
    requires Highlighted(RowView(items[i], i, current)) && Highlighted(RowView(items[j], j, current))
    ensures i == j
  {
  }

  /** Moving the highlight from a to b changes the look of rows a and b only, the
      two rows `setCurrentlyPlaying` asks to redraw. */
  lemma OnlyNotifiedRowsChange(song: AudioFile, position: int, a: int, b: int)
    requires RowView(song, position, a) != RowView(song, position, b)
    ensures position == a || position == b
  {
  }

  /** `areItemsTheSame`: the same song when the ids agree. */
  predicate AreItemsTheSame(oldItem: AudioFile, newItem: AudioFile) {
    oldItem.id == newItem.id
  }

  /** `areContentsTheSame`: the data class's structural equality. */
  predicate AreContentsTheSame(oldItem: AudioFile, newItem: AudioFile) {
    oldItem == newItem
  }

  /** Equal contents imply the same item, as `DiffUtil` requires; the converse fails
      when a song keeps its id but changes, for instance, its title. */
  lemma ContentsImplyItems(a: AudioFile, b: AudioFile)
    ensures AreContentsTheSame(a, b) ==> AreItemsTheSame(a, b)
    ensures AreItemsTheSame(a, b) && a.title != b.title ==> !AreContentsTheSame(a, b)
  {
  }

  class SongAdapter {
    /** The list last submitted. */
    var items: seq<AudioFile>
    var currentlyPlayingPosition: int
    /** The positions passed to `notifyItemChanged`, in call order. */
    var notified: seq<int>

    constructor ()
      ensures items == [] && currentlyPlayingPosition == -1 && notified == []
    {
      items := [];
      currentlyPlayingPosition := -1;
      notified := [];
    }

    /** `submitList`; its asynchronous diffing is not modelled. */
    method SubmitList(list: seq<AudioFile>)
      modifies this
      ensures items == list
      ensures currentlyPlayingPosition == old(currentlyPlayingPosition) && notified == old(notified)
    {
      items := list;
    }

    /** `setCurrentlyPlaying`: records the new position and asks for the old and
        the new row to be redrawn, in that order. */
    method SetCurrentlyPlaying(position: int)
      modifies this
      ensures currentlyPlayingPosition == position
      ensures notified == old(notified) + [old(currentlyPlayingPosition), position]
      ensures items == old(items)
    {
      var oldPosition := currentlyPlayingPosition;
      currentlyPlayingPosition := position;
      notified := notified + [oldPosition];
      notified := notified + [position];
    }

    /** `onBindViewHolder(holder, position)`, for a row RecyclerView counted. */
    function Bind(position: int): (r: SongRow)
      reads this
      requires 0 <= position < |items|
      ensures r == RowView(items[position], position, currentlyPlayingPosition)
    {
      RowView(items[position], position, currentlyPlayingPosition)
    }

    /** No row is highlighted before the first `setCurrentlyPlaying`. */
    lemma NothingHighlightedAtFirst(position: int)
      requires currentlyPlayingPosition == -1 && 0 <= position < |items|
      ensures !Highlighted(Bind(position))
    {
    }
  }
}
