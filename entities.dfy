/** The cached records the two screens work on: shows with their cover art, and episodes. */
module Entities {
  import opened Wrappers

  /** A decoded cover-art image (an Android Drawable); only the file it was decoded from is kept. */
  datatype Image = Image(sourcePath: string)

  /**
   * A show as kept in the local store. Its cover art is null until downloaded (or when the
   * downloaded file could not be decoded); the local path is the file the art was saved to.
   */
  datatype Show = Show(title: string, coverArt: Option<Image>, coverArtLocalPath: Option<string>)

  /**
   * An episode: its publication date as an integer timestamp (later is larger) and the
   * stream URLs at each quality, any of which may be missing.
   */
  datatype Episode = Episode(
    title: string,
    publicationDate: int,
    videoHdUrl: Option<string>,
    videoLargeUrl: Option<string>,
    videoSmallUrl: Option<string>,
    audioUrl: Option<string>)
}
