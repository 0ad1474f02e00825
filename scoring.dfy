/**
 * The scorer: how well one catalog track matches an expected title and
 * artist. Artist similarity weighs 40, title similarity 30, popularity adds up
 * to 10, and a track whose name, artist or album mentions a non-original
 * recording marker loses 50 once. The total is clamped at 0.
 */
module Scoring {
  import opened Catalog
  import opened Text

  /** Markers of non-original recordings (karaoke, covers, tributes, ...). */
  const KaraokeKeywords: set<string> := {
    "karaoke", "instrumental", "backing track", "cover",
    "tribute", "in the style of", "made famous by",
    "originally performed", "sing along", "minus one"
  }

  const ArtistWeight: real := 40.0
  const TitleWeight: real := 30.0
  const KaraokePenalty: real := 50.0

  /** The score with the name of the track and of its first artist. */
  datatype ScoredTrack = ScoredTrack(score: real, name: string, artistName: string)

  /** The lower-cased "name artist album" text searched for markers. */
  function CombinedText(t: Track): string
    requires HasArtist(t)
  {
    Lower(t.name + " " + ArtistName(t) + " " + AlbumName(t))
  }

  /** Some marker occurs in `text`. */
  predicate HasKaraokeKeyword(text: string) {
    exists k | k in KaraokeKeywords :: IsSubstring(k, text)
  }

  /** Similarity and popularity points, before the penalty and the clamp. */
  function MatchPoints(ratio: Ratio, t: Track, expectedTitle: string, expectedArtist: string): real
    requires HasArtist(t)
  {
    ratio(Lower(expectedArtist), Lower(ArtistName(t))) * ArtistWeight
    + ratio(Lower(expectedTitle), Lower(t.name)) * TitleWeight
    + Popularity(t) as real / 10.0
  }

  /** The score of `t` against the expected title and artist. */
  function Score(ratio: Ratio, t: Track, expectedTitle: string, expectedArtist: string): (r: ScoredTrack)
    requires HasArtist(t)
    ensures r.score >= 0.0
    ensures r.name == t.name && r.artistName == t.artists[0]
  {
    var points := MatchPoints(ratio, t, expectedTitle, expectedArtist)
      - (if HasKaraokeKeyword(CombinedText(t)) then KaraokePenalty else 0.0);
    ScoredTrack(if points > 0.0 then points else 0.0, t.name, ArtistName(t))
  }

  /**
   * The scorer as the source runs it: the points are accumulated step by step
   * and the markers are tried one after another, in no particular order, until
   * one is found.
   */
  method ScoreTrackMatch(ratio: Ratio, t: Track, expectedTitle: string, expectedArtist: string)
    returns (r: ScoredTrack)
    requires HasArtist(t)
    ensures r == Score(ratio, t, expectedTitle, expectedArtist)
  {
    var trackName := t.name;
    var artistName := t.artists[0];
    var albumName := AlbumName(t);
    var popularity := Popularity(t);

    var score := 0.0;
    score := score + ratio(Lower(expectedArtist), Lower(artistName)) * ArtistWeight;
    score := score + ratio(Lower(expectedTitle), Lower(trackName)) * TitleWeight;
    score := score + popularity as real / 10.0;
    ghost var points := score;

    var combinedText := Lower(trackName + " " + artistName + " " + albumName);
    var unchecked := KaraokeKeywords;
    while unchecked != {}
      invariant unchecked <= KaraokeKeywords
      invariant forall k :: k in KaraokeKeywords && k !in unchecked ==> !IsSubstring(k, combinedText)
      invariant score == points
      decreases |unchecked|
    {
      var keyword :| keyword in unchecked;
      if IsSubstring(keyword, combinedText) {
        score := score - KaraokePenalty;
        break;
      }
      unchecked := unchecked - {keyword};
    }

    r := ScoredTrack(if score > 0.0 then score else 0.0, trackName, artistName);
  }

  /**
   * With similarities in [0, 1] and a popularity in 0..100 the score is at
   * most 40 + 30 + 10 = 80.
   */
  lemma ScoreAtMostEighty(ratio: Ratio, t: Track, expectedTitle: string, expectedArtist: string)
    requires IsRatio(ratio) && HasArtist(t)
    requires 0 <= Popularity(t) <= 100
    ensures Score(ratio, t, expectedTitle, expectedArtist).score <= 80.0
  {
  }

  /**
   * A case-insensitive exact match on title and artist, with no marker, scores
   * 70 plus a tenth of the popularity: 80 at popularity 100, 70 at 0.
   */
  lemma ExactMatchScore(ratio: Ratio, t: Track, expectedTitle: string, expectedArtist: string)
    requires IsRatio(ratio) && HasArtist(t)
    requires Lower(expectedTitle) == Lower(t.name)
    requires Lower(expectedArtist) == Lower(ArtistName(t))
    requires !HasKaraokeKeyword(CombinedText(t))
    requires Popularity(t) >= 0
    ensures Score(ratio, t, expectedTitle, expectedArtist).score == 70.0 + Popularity(t) as real / 10.0
  {
  }

  /**
   * The penalty is a single 50, wherever the markers sit and however many
   * there are: a track carrying a marker scores exactly 50 less (clamped at 0)
   * than a track without one that has the same similarities and popularity.
   */
  lemma PenaltyAppliedOnce(ratio: Ratio, t: Track, u: Track, expectedTitle: string, expectedArtist: string)
    requires IsRatio(ratio)
    requires HasArtist(t) && HasArtist(u)
    requires ratio(Lower(expectedArtist), Lower(ArtistName(t))) == ratio(Lower(expectedArtist), Lower(ArtistName(u)))
    requires ratio(Lower(expectedTitle), Lower(t.name)) == ratio(Lower(expectedTitle), Lower(u.name))
    requires Popularity(t) == Popularity(u) >= 0
    requires HasKaraokeKeyword(CombinedText(t)) && !HasKaraokeKeyword(CombinedText(u))
    ensures var c := Score(ratio, u, expectedTitle, expectedArtist).score;
            Score(ratio, t, expectedTitle, expectedArtist).score == (if c > 50.0 then c - 50.0 else 0.0)
  {
  }

  /**
   * A lower similarity never raises the score: with the artist and title
   * similarities of one scorer at most those of another, the score is at most
   * the other's.
   */
  lemma ScoreMonotoneInSimilarity(r1: Ratio, r2: Ratio, t: Track, expectedTitle: string, expectedArtist: string)
    requires HasArtist(t)
    requires r1(Lower(expectedArtist), Lower(ArtistName(t))) <= r2(Lower(expectedArtist), Lower(ArtistName(t)))
    requires r1(Lower(expectedTitle), Lower(t.name)) <= r2(Lower(expectedTitle), Lower(t.name))
    ensures Score(r1, t, expectedTitle, expectedArtist).score <= Score(r2, t, expectedTitle, expectedArtist).score
  {
  }

  /** The track of the karaoke example: the marker sits in its name. */
  const KaraokeTrack: Track :=
    Track("abc123", "Bohemian Rhapsody (Karaoke Version)", ["Queen"], Some("Test Album"), Some(50))

  /** A marker in the track name is found: "(Karaoke Version)" contains "karaoke". */
  lemma KaraokeMarkerFound()
    ensures HasKaraokeKeyword(CombinedText(KaraokeTrack))
  {
    var t := KaraokeTrack;
    var rest := " " + ArtistName(t) + " " + AlbumName(t);
    assert t.name + " " + ArtistName(t) + " " + AlbumName(t) == t.name + rest;
    LowerConcat(t.name, rest);
    var name := Lower(t.name);
    assert t.name[19..26] == "Karaoke";
    LowerSlice(t.name, 19, 26);
    assert Lower("Karaoke") == "karaoke";
    var text := CombinedText(t);
    assert text[19..][..7] == name[19..26];
    assert IsPrefix("karaoke", text[19..]);
  }

  /**
   * The karaoke version of the expected song, by the expected artist, scores
   * below 30 however similar the titles are: at most 40 + 30 + 5 - 50.
   */
  lemma KaraokeVersionIsPenalised(ratio: Ratio)
    requires IsRatio(ratio)
    ensures Score(ratio, KaraokeTrack, "Bohemian Rhapsody", "Queen").score < 30.0
  {
    KaraokeMarkerFound();
  }
}
