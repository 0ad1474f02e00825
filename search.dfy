/**
 * Two-pass candidate retrieval and best-match selection for one reference.
 * The catalog is asked a field-scoped query and then a free-text query; the
 * candidates are the first answer followed by those tracks of the second
 * answer whose id has not been seen yet; the earliest candidate with the
 * highest score wins.
 */
module Search {
  import opened Catalog
  import opened Scoring

  /** Results asked of each search. */
  const SearchLimit: nat := 10

  /** One call to the catalog's track search. */
  datatype SearchRequest = SearchRequest(query: string, limit: nat)

  /** The first, field-scoped query. */
  function FieldQuery(title: string, artist: string): string {
    "track:" + title + " artist:" + artist
  }

  /** The second, free-text query. */
  function FreeTextQuery(title: string, artist: string): string {
    title + " " + artist
  }

  /** The ids of a sequence of tracks. */
  function Ids(ts: seq<Track>): set<TrackId> {
    set t | t in ts :: t.id
  }

  /**
   * The tracks of `second` that join the candidates after `first`: those whose
   * id is neither among the ids of `first` nor among the ids of the tracks
   * before them in `second`, in the order of `second`.
   */
  function FreshItems(first: seq<Track>, second: seq<Track>): seq<Track> {
    if second == [] then []
    else
      var earlier := second[..|second| - 1];
      var t := second[|second| - 1];
      FreshItems(first, earlier) + (if t.id in Ids(first) || t.id in Ids(earlier) then [] else [t])
  }

  /** The candidate list of one reference. */
  function Candidates(first: seq<Track>, second: seq<Track>): seq<Track> {
    first + FreshItems(first, second)
  }

  /**
   * The candidates carry exactly the ids of both answers, so the test "id
   * already among the candidates" is the test "id in the first answer or
   * earlier in the second".
   */
  lemma {:induction false} CandidateIds(first: seq<Track>, second: seq<Track>)
    ensures Ids(Candidates(first, second)) == Ids(first) + Ids(second)
  {
    if second != [] {
      var earlier := second[..|second| - 1];
      var t := second[|second| - 1];
      var added := if t.id in Ids(first) || t.id in Ids(earlier) then [] else [t];
      CandidateIds(first, earlier);
      assert second == earlier + [t];
      IdsConcat(earlier, [t]);
      assert Candidates(first, second) == Candidates(first, earlier) + added;
      IdsConcat(Candidates(first, earlier), added);
    }
  }

  lemma IdsConcat(a: seq<Track>, b: seq<Track>)
    ensures Ids(a + b) == Ids(a) + Ids(b)
  {
    assert forall t :: t in a + b <==> t in a || t in b;
  }

  /**
   * Every track added by the second pass comes from the second answer, and
   * carries an id that is not in the first answer and that no other added
   * track carries.
   */
  lemma {:induction false} FreshItemsAreNew(first: seq<Track>, second: seq<Track>)
    ensures forall i :: 0 <= i < |FreshItems(first, second)| ==>
      FreshItems(first, second)[i] in second && FreshItems(first, second)[i].id !in Ids(first)
    ensures forall i, j :: 0 <= i < j < |FreshItems(first, second)| ==>
      FreshItems(first, second)[i].id != FreshItems(first, second)[j].id
  {
    if second != [] {
      var earlier := second[..|second| - 1];
      var t := second[|second| - 1];
      var prev := FreshItems(first, earlier);
      FreshItemsAreNew(first, earlier);
      CandidateIds(first, earlier);
      assert forall i :: 0 <= i < |prev| ==> prev[i].id in Ids(Candidates(first, earlier));
      assert forall x :: x in earlier ==> x in second;
    }
  }

  /** A second answer whose ids all appear in the first adds nothing. */
  lemma {:induction false} KnownIdsAddNothing(first: seq<Track>, second: seq<Track>)
    requires Ids(second) <= Ids(first)
    ensures Candidates(first, second) == first
  {
    if second != [] {
      var earlier := second[..|second| - 1];
      assert second == earlier + [second[|second| - 1]];
      assert Ids(earlier) <= Ids(second);
      KnownIdsAddNothing(first, earlier);
    }
  }

  /** The scores of the candidates, in candidate order. */
  function Scores(ratio: Ratio, cands: seq<Track>, title: string, artist: string): (s: seq<real>)
    requires AllHaveArtists(cands)
    ensures |s| == |cands|
  {
    seq(|cands|, i requires 0 <= i < |cands| => Score(ratio, cands[i], title, artist).score)
  }

  /**
   * The index a running maximum with a strict `>` ends on: the first index
   * wins, and a later one replaces it only when strictly greater.
   */
  function BestIndex(s: seq<real>): (k: nat)
    requires |s| > 0
    ensures k < |s|
  {
    if |s| == 1 then 0
    else
      var b := BestIndex(s[..|s| - 1]);
      if s[|s| - 1] > s[b] then |s| - 1 else b
  }

  /** `k` holds a maximum of `s`, and no earlier index does. */
  ghost predicate IsEarliestMax(s: seq<real>, k: int) {
    && 0 <= k < |s|
    && (forall j :: 0 <= j < |s| ==> s[j] <= s[k])
    && (forall j :: 0 <= j < k ==> s[j] < s[k])
  }

  /** The running maximum picks the earliest maximum, and it is the only index that is one. */
  lemma {:induction false} BestIndexIsEarliestMax(s: seq<real>, k: int)
    requires |s| > 0
    ensures IsEarliestMax(s, BestIndex(s))
    ensures IsEarliestMax(s, k) <==> k == BestIndex(s)
  {
    if |s| > 1 {
      var init := s[..|s| - 1];
      BestIndexIsEarliestMax(init, BestIndex(init));
      assert forall j :: 0 <= j < |init| ==> init[j] == s[j];
    }
  }

  /**
   * The outcome of selection over a candidate list: NoMatch when it is empty,
   * otherwise the id, score, name and first artist of the best candidate.
   */
  function SelectOutcome(ratio: Ratio, cands: seq<Track>, title: string, artist: string): MatchResult
    requires AllHaveArtists(cands)
  {
    if cands == [] then NoMatch
    else
      var t := cands[BestIndex(Scores(ratio, cands, title, artist))];
      var s := Score(ratio, t, title, artist);
      MatchResult(Some(t.id), s.score, Some(s.name), Some(s.artistName))
  }

  /** The outcome of the search for one reference, given the two answers. */
  function SearchOutcome(ratio: Ratio, title: string, artist: string, first: seq<Track>, second: seq<Track>): MatchResult
    requires AllHaveArtists(Candidates(first, second))
  {
    SelectOutcome(ratio, Candidates(first, second), title, artist)
  }

  /**
   * Selection returns NoMatch exactly when there is no candidate; otherwise
   * it returns a candidate that scores at least as well as every candidate
   * and strictly better than every earlier one, with that candidate's score,
   * name and first artist.
   */
  lemma SelectOutcomeSpec(ratio: Ratio, cands: seq<Track>, title: string, artist: string)
    requires AllHaveArtists(cands)
    ensures cands == [] <==> SelectOutcome(ratio, cands, title, artist) == NoMatch
    ensures cands != [] ==> exists k ::
      && IsEarliestMax(Scores(ratio, cands, title, artist), k)
      && SelectOutcome(ratio, cands, title, artist) == MatchResult(
           Some(cands[k].id), Scores(ratio, cands, title, artist)[k],
           Some(cands[k].name), Some(cands[k].artists[0]))
  {
    if cands != [] {
      var s := Scores(ratio, cands, title, artist);
      BestIndexIsEarliestMax(s, BestIndex(s));
    }
  }

  /**
   * A non-empty candidate list always yields a track id, whatever the scores:
   * scores are never negative and the running best starts below zero, so even
   * a candidate carrying a marker is chosen when it is the only one.
   */
  lemma CandidatesAlwaysMatch(ratio: Ratio, title: string, artist: string, first: seq<Track>, second: seq<Track>)
    requires AllHaveArtists(Candidates(first, second))
    ensures SearchOutcome(ratio, title, artist, first, second).trackId.Some?
        <==> first != [] || second != []
    ensures SearchOutcome(ratio, title, artist, first, second).trackId.Some? ==>
        SearchOutcome(ratio, title, artist, first, second).trackId.value in Ids(first) + Ids(second)
  {
    CandidateIds(first, second);
    FreshItemsAreNew(first, second);
    var cands := Candidates(first, second);
    if second != [] && first == [] {
      assert second[0].id in Ids(second);
      assert cands != [];
    }
    if cands != [] {
      var k := BestIndex(Scores(ratio, cands, title, artist));
      assert cands[k] in cands;
    }
  }

  /**
   * Selection over the scored candidates, as the source runs it: a running
   * best that starts at -1 and is replaced only by a strictly greater score.
   */
  method SelectBestMatch(ratio: Ratio, cands: seq<Track>, title: string, artist: string)
    returns (m: MatchResult)
    requires AllHaveArtists(cands)
    ensures m == SelectOutcome(ratio, cands, title, artist)
  {
    if cands == [] {
      return NoMatch;
    }
    ghost var scores := Scores(ratio, cands, title, artist);
    var bestScore: real := -1.0;
    var bestTrack := cands[0];
    var bestName := "";
    var bestArtist := "";
    ghost var best: nat := 0;
    var i := 0;
    while i < |cands|
      invariant 0 <= i <= |cands|
      invariant i == 0 ==> bestScore == -1.0
      invariant i > 0 ==> best < i && bestScore == scores[best]
      invariant i > 0 ==> forall j :: 0 <= j < i ==> scores[j] <= bestScore
      invariant i > 0 ==> forall j :: 0 <= j < best ==> scores[j] < bestScore
      invariant i > 0 ==> bestTrack == cands[best] && bestName == cands[best].name && bestArtist == cands[best].artists[0]
    {
      var scored := ScoreTrackMatch(ratio, cands[i], title, artist);
      ScoreAt(ratio, cands, title, artist, i, scored);
      if scored.score > bestScore {
        bestScore := scored.score;
        bestTrack := cands[i];
        bestName := scored.name;
        bestArtist := scored.artistName;
        best := i;
      }
      i := i + 1;
    }
    BestIndexIsEarliestMax(scores, best);
    ScoreAt(ratio, cands, title, artist, best, Score(ratio, cands[best], title, artist));
    m := MatchResult(Some(bestTrack.id), bestScore, Some(bestName), Some(bestArtist));
  }

  /** What the scorer returns for candidate `i` is its entry in `Scores`, with its name and first artist. */
  lemma ScoreAt(ratio: Ratio, cands: seq<Track>, title: string, artist: string, i: nat, scored: ScoredTrack)
    requires AllHaveArtists(cands) && i < |cands|
    requires scored == Score(ratio, cands[i], title, artist)
    ensures scored.score == Scores(ratio, cands, title, artist)[i] && scored.score >= 0.0
    ensures scored.name == cands[i].name && scored.artistName == cands[i].artists[0]
  {
  }

  /**
   * `search_track`: asks the field-scoped query and then the free-text query,
   * each for up to 10 results, and selects among the merged candidates.
   * `firstPass` and `secondPass` are the catalog's answers to the two
   * requests, in the order the requests are returned.
   */
  method SearchTrack(ratio: Ratio, title: string, artist: string, firstPass: seq<Track>, secondPass: seq<Track>)
    returns (requests: seq<SearchRequest>, m: MatchResult)
    requires AllHaveArtists(Candidates(firstPass, secondPass))
    ensures requests == [SearchRequest(FieldQuery(title, artist), SearchLimit),
                         SearchRequest(FreeTextQuery(title, artist), SearchLimit)]
    ensures m == SearchOutcome(ratio, title, artist, firstPass, secondPass)
  {
    requests := [SearchRequest(FieldQuery(title, artist), SearchLimit)];
    var candidates := firstPass;

    requests := requests + [SearchRequest(FreeTextQuery(title, artist), SearchLimit)];
    var i := 0;
    while i < |secondPass|
      invariant 0 <= i <= |secondPass|
      invariant candidates == Candidates(firstPass, secondPass[..i])
    {
      var t := secondPass[i];
      CandidateIds(firstPass, secondPass[..i]);
      assert secondPass[..i + 1][..i] == secondPass[..i];
      if t.id !in Ids(candidates) {
        candidates := candidates + [t];
      }
      i := i + 1;
    }
    assert secondPass[..i] == secondPass;
    m := SelectBestMatch(ratio, candidates, title, artist);
  }
}
