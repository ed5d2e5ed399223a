/** The records the application passes around: search hits, fetched details and watched entries. */
module Movies {
  import opened Wrappers

  /** One hit of the search endpoint: its `imdbID`, `Title`, `Year` and `Poster`. */
  datatype Movie = Movie(imdbID: string, title: string, year: string, poster: string)

  /**
   * The fields of a fetched details payload that a watched entry is built from.
   * `runtime` is the raw text such as "148 min" and `imdbRating` the raw rating text;
   * the plot, release date, cast, director and genre are only rendered.
   */
  datatype Details = Details(title: string, year: string, poster: string, runtime: string, imdbRating: string)

  /**
   * One entry of the watched list, a frozen snapshot taken when a rating is confirmed.
   * `runtime` is `None` when the first word of the runtime text is not a plain
   * decimal numeral; `userRating` is the chosen star count; `countRatingDecisions`
   * is how often the pending rating was changed before confirming.
   */
  datatype WatchedEntry = WatchedEntry(
    imdbID: string,
    title: string,
    year: string,
    poster: string,
    imdbRating: string,
    runtime: Option<nat>,
    userRating: nat,
    countRatingDecisions: nat)
}
