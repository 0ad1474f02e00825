/**
 * The per-reference loop of `main`: every reference is searched in input
 * order, its track id goes to the found list or the reference itself to the
 * not-found list, and afterwards a playlist is created from the found ids
 * unless this is a dry run or nothing was found.
 */
module Pipeline {
  import opened Catalog
  import opened Search
  import opened Batching

  /** The catalog's answers to the two searches for one reference. */
  datatype SearchAnswers = SearchAnswers(fieldResults: seq<Track>, freeTextResults: seq<Track>)

  /**
   * Every track that gets scored has an artist: the first answer's tracks and
   * the second answer's tracks that join the candidates.
   */
  predicate AnswersHaveArtists(a: SearchAnswers) {
    AllHaveArtists(Candidates(a.fieldResults, a.freeTextResults))
  }

  /** One answer pair per reference, every scored track with an artist. */
  predicate AnswersFor(queries: seq<TrackQuery>, answers: seq<SearchAnswers>) {
    |answers| == |queries| && forall i :: 0 <= i < |answers| ==> AnswersHaveArtists(answers[i])
  }

  /**
   * `if track_id:` in the source: the outcome counts as found when it carries
   * an id that is not the empty string.
   */
  predicate IsFound(m: MatchResult) {
    m.trackId.Some? && m.trackId.value != ""
  }

  /** The search outcome of every reference, in input order. */
  function Outcomes(ratio: Ratio, queries: seq<TrackQuery>, answers: seq<SearchAnswers>): (outs: seq<MatchResult>)
    requires AnswersFor(queries, answers)
    ensures |outs| == |queries|
  {
    seq(|queries|, i requires 0 <= i < |queries| =>
      SearchOutcome(ratio, queries[i].title, queries[i].artist, answers[i].fieldResults, answers[i].freeTextResults))
  }

  /** The ids of the found outcomes, in order. */
  function FoundIds(outs: seq<MatchResult>): seq<TrackId> {
    if outs == [] then []
    else
      var last := outs[|outs| - 1];
      FoundIds(outs[..|outs| - 1]) + (if IsFound(last) then [last.trackId.value] else [])
  }

  /** The references whose outcome is not found, in order. */
  function NotFound(queries: seq<TrackQuery>, outs: seq<MatchResult>): seq<TrackQuery>
    requires |queries| == |outs|
  {
    if outs == [] then []
    else
      var n := |outs| - 1;
      NotFound(queries[..n], outs[..n]) + (if IsFound(outs[n]) then [] else [queries[n]])
  }

  /** What happens to the playlist once every reference has been searched. */
  datatype PlaylistAction =
    | DryRunReport(wouldAdd: nat)
    | CreatePlaylist(batches: seq<seq<TrackId>>)
    | NoPlaylist

  function ActionFor(dryRun: bool, foundIds: seq<TrackId>): PlaylistAction {
    if dryRun then DryRunReport(|foundIds|)
    else if foundIds != [] then CreatePlaylist(BatchesOf(foundIds))
    else NoPlaylist
  }

  /**
   * Every reference lands in exactly one list: the two lists together are as
   * long as the input, a found outcome's id is in the found list and an
   * unfound reference is in the not-found list.
   */
  lemma {:induction false} Partition(queries: seq<TrackQuery>, outs: seq<MatchResult>)
    requires |queries| == |outs|
    ensures |FoundIds(outs)| + |NotFound(queries, outs)| == |queries|
    ensures forall i :: 0 <= i < |outs| && IsFound(outs[i]) ==> outs[i].trackId.value in FoundIds(outs)
    ensures forall i :: 0 <= i < |outs| && !IsFound(outs[i]) ==> queries[i] in NotFound(queries, outs)
  {
    if outs != [] {
      var n := |outs| - 1;
      Partition(queries[..n], outs[..n]);
      assert forall i :: 0 <= i < n ==> outs[..n][i] == outs[i] && queries[..n][i] == queries[i];
    }
  }

  /** The found ids are exactly the ids of the found outcomes: each comes from one. */
  lemma {:induction false} FoundIdsComeFromOutcomes(outs: seq<MatchResult>)
    ensures forall id :: id in FoundIds(outs) ==>
      exists i :: 0 <= i < |outs| && IsFound(outs[i]) && outs[i].trackId.value == id
  {
    if outs != [] {
      var n := |outs| - 1;
      FoundIdsComeFromOutcomes(outs[..n]);
      assert forall i :: 0 <= i < n ==> outs[..n][i] == outs[i];
    }
  }

  /**
   * When every reference got at least one search result and no catalog id is
   * empty, every reference is found, whatever the scores: the not-found list
   * is empty and the found list has one id per reference.
   */
  lemma {:induction false} AnsweredReferencesAreFound(ratio: Ratio, queries: seq<TrackQuery>, answers: seq<SearchAnswers>)
    requires AnswersFor(queries, answers)
    requires forall i :: 0 <= i < |answers| ==> answers[i].fieldResults != [] || answers[i].freeTextResults != []
    requires forall i, t :: 0 <= i < |answers| && (t in answers[i].fieldResults || t in answers[i].freeTextResults) ==> t.id != ""
    ensures NotFound(queries, Outcomes(ratio, queries, answers)) == []
    ensures |FoundIds(Outcomes(ratio, queries, answers))| == |queries|
  {
    var outs := Outcomes(ratio, queries, answers);
    forall i | 0 <= i < |outs| ensures IsFound(outs[i]) {
      var a := answers[i];
      CandidatesAlwaysMatch(ratio, queries[i].title, queries[i].artist, a.fieldResults, a.freeTextResults);
      var id := outs[i].trackId.value;
      assert id in Ids(a.fieldResults) + Ids(a.freeTextResults);
    }
    AllFoundNoneMissing(queries, outs);
    Partition(queries, outs);
  }

  lemma {:induction false} AllFoundNoneMissing(queries: seq<TrackQuery>, outs: seq<MatchResult>)
    requires |queries| == |outs|
    requires forall i :: 0 <= i < |outs| ==> IsFound(outs[i])
    ensures NotFound(queries, outs) == []
  {
    if outs != [] {
      var n := |outs| - 1;
      AllFoundNoneMissing(queries[..n], outs[..n]);
    }
  }

  /**
   * The loop of `main`: search every reference in order, collect the found ids
   * and the unfound references, then decide what to do with the playlist.
   * `answers[i]` is what the catalog returns for the two searches of
   * `queries[i]`.
   */
  method Run(ratio: Ratio, queries: seq<TrackQuery>, answers: seq<SearchAnswers>, dryRun: bool)
    returns (foundIds: seq<TrackId>, notFound: seq<TrackQuery>, action: PlaylistAction)
    requires AnswersFor(queries, answers)
    ensures foundIds == FoundIds(Outcomes(ratio, queries, answers))
    ensures notFound == NotFound(queries, Outcomes(ratio, queries, answers))
    ensures action == ActionFor(dryRun, foundIds)
  {
    ghost var outs := Outcomes(ratio, queries, answers);
    foundIds := [];
    notFound := [];
    var idx := 0;
    while idx < |queries|
      invariant 0 <= idx <= |queries|
      invariant foundIds == FoundIds(outs[..idx])
      invariant notFound == NotFound(queries[..idx], outs[..idx])
    {
      var query := queries[idx];
      var _, m := SearchTrack(ratio, query.title, query.artist,
                              answers[idx].fieldResults, answers[idx].freeTextResults);
      assert m == outs[idx];
      assert outs[..idx + 1][..idx] == outs[..idx];
      assert queries[..idx + 1][..idx] == queries[..idx];
      if m.trackId.Some? && m.trackId.value != "" {
        foundIds := foundIds + [m.trackId.value];
      } else {
        notFound := notFound + [query];
      }
      idx := idx + 1;
    }
    assert outs[..idx] == outs;
    assert queries[..idx] == queries;

    if dryRun {
      action := DryRunReport(|foundIds|);
    } else if foundIds != [] {
      var batches := BatchTrackIds(foundIds);
      action := CreatePlaylist(batches);
    } else {
      action := NoPlaylist;
    }
  }
}
