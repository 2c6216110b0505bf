/**
 * The two plain records of the app: a scanned audio track and a folder
 * playlist. Both are immutable values compared by structure (Kotlin data
 * classes), so they are datatypes. A content `Uri` is kept as its string form.
 */
module Media {
  import opened Wrappers

  datatype Uri = Uri(text: string)

  /** One playable track; the defaults are those of the Kotlin constructor. */
  datatype AudioFile = AudioFile(
    id: int,
    title: string,
    artist: string,
    album: string,
    duration: int,
    uri: Uri,
    path: string,
    albumArtUri: Option<Uri> := None,
    size: int := 0,
    dateAdded: int := 0,
    dateModified: int := 0)

  /** The songs found under one parent directory. */
  datatype FolderPlaylist = FolderPlaylist(folderPath: string, folderName: string, songs: seq<AudioFile>)
}
