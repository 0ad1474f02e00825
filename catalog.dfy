/**
 * The values the matching pipeline works on: catalog tracks as returned by a
 * search, the (title, artist) references read from the input table, and the
 * per-reference outcome of a search.
 */
module Catalog {

  datatype Option<+T> = None | Some(value: T) {
    function GetOr(default: T): T {
      match this
      case Some(v) => v
      case None => default
    }
  }

  datatype Result<+T, +E> = Ok(value: T) | Err(error: E)

  /** Catalog track identifiers are opaque strings. */
  type TrackId = string

  /**
   * One raw search result. `artists` holds the names of the track's artists in
   * catalog order; `albumName` is None when the payload has no album or the
   * album has no name; `popularity` is None when the payload has no popularity.
   */
  datatype Track = Track(
    id: TrackId,
    name: string,
    artists: seq<string>,
    albumName: Option<string>,
    popularity: Option<int>)

  /** The scorer reads the first artist unguarded, so it needs one. */
  predicate HasArtist(t: Track) {
    |t.artists| > 0
  }

  predicate AllHaveArtists(ts: seq<Track>) {
    forall i :: 0 <= i < |ts| ==> HasArtist(ts[i])
  }

  function ArtistName(t: Track): string
    requires HasArtist(t)
  {
    t.artists[0]
  }

  /** A missing album, or an album without a name, reads as the empty string. */
  function AlbumName(t: Track): string {
    t.albumName.GetOr("")
  }

  /** A missing popularity reads as 0. */
  function Popularity(t: Track): int {
    t.popularity.GetOr(0)
  }

  /** One reference of the input table. */
  datatype TrackQuery = TrackQuery(title: string, artist: string)

  /**
   * What a search for one reference yields: the chosen track's id, its score
   * and its name and first artist, or NoMatch.
   */
  datatype MatchResult = MatchResult(
    trackId: Option<TrackId>,
    score: real,
    matchedTitle: Option<string>,
    matchedArtist: Option<string>)

  const NoMatch := MatchResult(None, 0.0, None, None)

  /**
   * The similarity measure between two strings (difflib's
   * `SequenceMatcher(None, a, b).ratio()` in the source). Its algorithm is not
   * modelled: every operation takes it as a parameter.
   */
  type Ratio = (string, string) -> real

  /** What the lemmas assume of the similarity measure. */
  ghost predicate IsRatio(ratio: Ratio) {
    && (forall a, b :: 0.0 <= ratio(a, b) <= 1.0)
    && (forall s :: ratio(s, s) == 1.0)
  }
}
