/** The IndexErrors the scraper does not catch, and the wrappers that carry them. */
module Failures {

  /** Every failure below is an uncaught IndexError in the scraper: the run aborts. */
  datatype Error =
    | EmptyArtistToken        // the artist URL indexes the first character of an empty token
    | SongBeforeAlbum         // a song link is filed under album 0 while no album list exists yet
    | TitleWithoutColon       // an album heading has no ':' to split its label off
    | NoAlbumTitles           // the trailing-bucket rule reads the last title of an empty list
    | LyricsIndexOutOfRange   // more albums are scored than there are lyric strings

  datatype Result<T> = Ok(value: T) | Err(error: Error)

  datatype Option<T> = None | Some(value: T)
}
