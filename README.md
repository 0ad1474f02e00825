# Spotify playlist creator: a verified model of the matching pipeline

This project models in Dafny how `spotify_playlist.py` turns a table of
(title, artist) references into the track ids of a playlist:

- **Row validation** (`TsvRows`): the rows of the input table, already split
  into columns, become stripped (title, artist) references. Processing stops
  at the first bad row, and the error names its line.
- **Scoring** (`Scoring`): each catalog track gets a score against the expected
  title and artist:
  - 40 points times the artist similarity;
  - 30 points times the title similarity;
  - a tenth of the track's popularity;
  - minus 50, once, when the lower-cased "name artist album" text contains a
    karaoke/cover marker.
  The result is clamped at 0.
- **Two-pass retrieval and selection** (`Search`): a field-scoped query and a
  free-text query are issued, 10 results each. The candidates are the first
  answer, followed by the second answer's tracks whose id is new. The earliest
  candidate with the highest score wins.
- **Batching** (`Batching`): the found ids are sent to the playlist in
  consecutive batches of at most 100.
- **The loop of `main`** (`Pipeline`): references are searched in input order.
  Each one goes to the found list or the not-found list. A playlist is created
  only outside dry-run mode and only when something was found.

The similarity measure (difflib's `SequenceMatcher.ratio`) is a parameter
`ratio` of every operation. The lemmas that need its properties assume
`IsRatio(ratio)`: every value lies in [0, 1], and a string compared with itself
scores 1. The catalog's search answers are parameters too.

In four places the model follows the code where the repository's tests expect
something else, or where the code simply has no handling:
- The score is clamped at 0: `score_track_match` returns `max(0, score)`
  (spotify_playlist.py:186). The karaoke test only hints at a negative score,
  in a comment ("possibly negative", tests/test_score_track_match.py:77).
- The tests expect a karaoke-only candidate list to yield no track
  (tests/test_search_track.py:115-132 and 210-221). The code's running best
  starts at -1 and the code has no "score > 0" acceptance threshold. So a
  non-empty candidate list always yields a track, even when its only
  candidate is a karaoke version (`Search.CandidatesAlwaysMatch`).
- The tests expect the second search to run after the first one fails
  (tests/test_search_track.py:138-163). The code does not isolate a failing
  search.
- The batching loop (spotify_playlist.py:250-252) does not handle a failing
  batch.

## Model

| member | source | states |
|---|---|---|
| `Scoring.Score` | spotify_playlist.py:145-186 | the score is never negative; the returned name is the track's name and the returned artist is its first artist's name, unchanged |
| `Scoring.ScoreTrackMatch` | spotify_playlist.py:157-186 | accumulating the points step by step and trying the markers one by one until the first hit (set order unspecified) gives exactly `Score`: 50 is subtracted once if any marker occurs, and not at all otherwise |
| `Scoring.ScoreAtMostEighty` | spotify_playlist.py:162-177 | with similarities in [0, 1] and popularity in 0..100 the score is at most 80 |
| `Scoring.ExactMatchScore` | spotify_playlist.py:162-177 | a case-insensitive exact title and artist match without markers scores exactly 70 + popularity/10 (80 at popularity 100, 70 at 0) |
| `Scoring.PenaltyAppliedOnce` | spotify_playlist.py:179-186 | with similarities in [0, 1], a track carrying any number of markers, in its name, artist or album, scores exactly 50 less, clamped at 0, than an unmarked twin with the same similarities and the same non-negative popularity |
| `Scoring.ScoreMonotoneInSimilarity` | spotify_playlist.py:165-177 | lowering the artist or title similarity never raises the score |
| `Scoring.KaraokeMarkerFound` | spotify_playlist.py:179-184 | the lower-cased combined text of a track named "Bohemian Rhapsody (Karaoke Version)" contains the marker "karaoke" |
| `Scoring.KaraokeVersionIsPenalised` | spotify_playlist.py:145-186 | that track, by Queen with popularity 50, scores below 30 against "Bohemian Rhapsody" by "Queen", whatever the title similarity |
| `Search.CandidateIds` | spotify_playlist.py:204-211 | the candidates carry exactly the ids of the first and second answers |
| `Search.FreshItemsAreNew` | spotify_playlist.py:209-211 | every track the second pass adds comes from the second answer, has an id absent from the first answer, and no two added tracks share an id |
| `Search.KnownIdsAddNothing` | spotify_playlist.py:209-211 | a second answer whose ids all appear in the first leaves the candidates equal to the first answer |
| `Search.BestIndexIsEarliestMax` | spotify_playlist.py:217-228 | a running best replaced only on a strictly greater score ends on a maximal score with no earlier maximum, and that index is the only one with this property |
| `Search.SelectOutcomeSpec` | spotify_playlist.py:213-230 | selection yields `(None, 0, None, None)` exactly when there is no candidate; otherwise it yields the id, score, name and first artist of the earliest maximal candidate |
| `Search.CandidatesAlwaysMatch` | spotify_playlist.py:213-230 | a search yields a track id exactly when either answer is non-empty, and that id is one of the answers' ids |
| `Search.SelectBestMatch` | spotify_playlist.py:213-230 | the selection loop, starting from a best of -1 and comparing with `>`, returns the selection outcome |
| `Search.SearchTrack` | spotify_playlist.py:189-230 | issues `track:<title> artist:<artist>` and then `<title> <artist>`, each with limit 10; appends each second-answer track with a new id to the candidate list and returns the selection outcome over them |
| `Batching.BatchTrackIds` | spotify_playlist.py:250-252 | the loop over `range(0, n, 100)` produces exactly the batches `ids[100k : 100k + 100]`, in order |
| `Batching.BatchesOfShape` | spotify_playlist.py:250-252 | there are ⌈n/100⌉ batches, none empty or longer than 100, and all but the last have exactly 100 ids |
| `Batching.FlattenBatchesOf` | spotify_playlist.py:250-252 | the batches concatenate back to the id list |
| `Batching.TwoHundredFiftyIds` | spotify_playlist.py:250-252 | 250 ids go out as three batches of 100, 100 and 50 |
| `TsvRows.ParseRows` | spotify_playlist.py:93-112 | fails when there is at most a header row; otherwise succeeds exactly when every data row has at least two columns and a non-blank stripped title and artist, yielding one stripped pair per data row in order; on failure it reports the first bad row with its 1-based line number and the kind of fault |
| `TsvRows.AcceptedFieldsAreTrimmed` | spotify_playlist.py:103-110 | an accepted row yields a non-empty title and artist with no whitespace at either end |
| `TsvRows.WhitespaceOnlyFieldRejected` | spotify_playlist.py:103-108 | a row whose title or artist is only whitespace is rejected, and on any line its error is a blank-field error for that line |
| `Text.StripSpec` | spotify_playlist.py:103-104 | `strip()` returns a slice of its input with only whitespace cut off on either side, not starting or ending in whitespace, and empty exactly when the input is all whitespace |
| `Pipeline.Run` | spotify_playlist.py:266-291 | the found ids and the not-found references are those of the per-reference outcomes in input order; the playlist is created, in batches, only when not a dry run and the found list is non-empty |
| `Pipeline.Partition` | spotify_playlist.py:270-279 | every reference lands in exactly one list: the two lengths sum to the input length, found ids are in the found list, unfound references in the not-found list |
| `Pipeline.FoundIdsComeFromOutcomes` | spotify_playlist.py:270-273 | every id in the found list is the id of some found outcome |
| `Pipeline.AnsweredReferencesAreFound` | spotify_playlist.py:270-279 | when every reference got at least one search result and no id is empty, nothing is reported not found and every reference contributes one id |

## Left out

- `parse_args`, `validate_env` and `authenticate`: argument parsing, environment loading and the OAuth flow are I/O.
- Opening the file and `csv.reader` in `parse_tsv`: `ParseRows` starts from the split rows. `sys.exit(1)` becomes an `Err` result. No message is printed.
- All printing: progress lines, summary counts and the final not-found report.
- difflib's `SequenceMatcher.ratio` algorithm: it is the `ratio` parameter. Only the properties in `IsRatio` are assumed, and only where a lemma needs them.
- The spotipy calls: `sp.search` answers are parameters (`SearchTrack`, `Run`). `create_playlist`'s `current_user`, `user_playlist_create` and the returned playlist URL are not modelled. Only the sequence of batches sent to `playlist_add_items` is modelled.
- Floating point: scores are exact reals.
- `str.lower()` maps only ASCII letters here. Python's full Unicode case mapping is not modelled.
- `Scoring.Score`: requires the track to have at least one artist. The source reads `track["artists"][0]` unguarded and raises when the list is empty or missing. `SearchTrack` and `Run` therefore require an artist on every track that gets scored: every track of the first answer, and every track of the second answer whose id is new. A second-answer track whose id is already a candidate is never scored and needs no artist. An album or popularity key present with a null value (which also raises) is not modelled either.
- Service errors: an exception from a search or from a playlist call ends the run in the source. The model has no error path for them.
