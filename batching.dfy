/**
 * Populating a playlist: the accepted track ids are sent in consecutive
 * batches of at most 100, in order.
 */
module Batching {
  import opened Catalog

  /** Most ids sent in one add-items call. */
  const BatchSize: nat := 100

  /** ⌈n / 100⌉: the number of batches for n ids. */
  function NumBatches(n: nat): nat {
    (n + BatchSize - 1) / BatchSize
  }

  /** Batch `k` exists exactly when its first id does. */
  lemma NumBatchesBound(n: nat, k: nat)
    ensures k < NumBatches(n) <==> k * BatchSize < n
  {
    var q := (n + BatchSize - 1) / BatchSize;
    var r := (n + BatchSize - 1) % BatchSize;
    assert BatchSize == 100;
    assert n + 99 == 100 * q + r && 0 <= r < 100;
    assert k * BatchSize == 100 * k;
  }

  /** The ids of batch `k`: `ids[100k : 100k + 100]`, cut at the end of `ids`. */
  function BatchAt(ids: seq<TrackId>, k: nat): seq<TrackId>
    requires k < NumBatches(|ids|)
  {
    NumBatchesBound(|ids|, k);
    var lo := k * BatchSize;
    var hi := if lo + BatchSize <= |ids| then lo + BatchSize else |ids|;
    ids[lo..hi]
  }

  /** The batches of `ids`, in the order they are sent. */
  function BatchesOf(ids: seq<TrackId>): seq<seq<TrackId>> {
    seq(NumBatches(|ids|), k requires 0 <= k < NumBatches(|ids|) => BatchAt(ids, k))
  }

  /** The ids of a sequence of batches, in order. */
  function Flatten(batches: seq<seq<TrackId>>): seq<TrackId> {
    if batches == [] then [] else Flatten(batches[..|batches| - 1]) + batches[|batches| - 1]
  }

  /**
   * The shape of the batches: ⌈n / 100⌉ of them, none empty, none longer than
   * 100, and all but the last exactly 100.
   */
  lemma BatchesOfShape(ids: seq<TrackId>)
    ensures |BatchesOf(ids)| == NumBatches(|ids|)
    ensures forall k :: 0 <= k < |BatchesOf(ids)| ==> 0 < |BatchesOf(ids)[k]| <= BatchSize
    ensures forall k :: 0 <= k < |BatchesOf(ids)| - 1 ==> |BatchesOf(ids)[k]| == BatchSize
  {
  }

  /** The first `k` batches hold the first `100k` ids (fewer at the end). */
  lemma {:induction false} FlattenPrefix(ids: seq<TrackId>, k: nat)
    requires k <= NumBatches(|ids|)
    ensures Flatten(BatchesOf(ids)[..k]) == ids[..if k * BatchSize <= |ids| then k * BatchSize else |ids|]
  {
    if k > 0 {
      var bs := BatchesOf(ids);
      FlattenPrefix(ids, k - 1);
      NumBatchesBound(|ids|, k - 1);
      assert bs[..k][..k - 1] == bs[..k - 1];
      var lo := (k - 1) * BatchSize;
      var hi := if lo + BatchSize <= |ids| then lo + BatchSize else |ids|;
      assert bs[..k][k - 1] == ids[lo..hi];
      assert ids[..hi] == ids[..lo] + ids[lo..hi];
    }
  }

  /** Sending the batches in order sends every id exactly once, in order. */
  lemma FlattenBatchesOf(ids: seq<TrackId>)
    ensures Flatten(BatchesOf(ids)) == ids
  {
    var bs := BatchesOf(ids);
    FlattenPrefix(ids, |bs|);
    assert bs[..|bs|] == bs;
  }

  /** 250 ids go out as three batches of 100, 100 and 50. */
  lemma TwoHundredFiftyIds(ids: seq<TrackId>)
    requires |ids| == 250
    ensures |BatchesOf(ids)| == 3
    ensures |BatchesOf(ids)[0]| == 100 && |BatchesOf(ids)[1]| == 100 && |BatchesOf(ids)[2]| == 50
  {
  }

  /**
   * The batching loop of `create_playlist`: slices starting at 0, 100, 200, ...
   * while the start is below the number of ids.
   */
  method BatchTrackIds(trackIds: seq<TrackId>) returns (batches: seq<seq<TrackId>>)
    ensures batches == BatchesOf(trackIds)
  {
    batches := [];
    var i := 0;
    while i < |trackIds|
      invariant i == |batches| * BatchSize
      invariant |batches| <= NumBatches(|trackIds|)
      invariant batches == BatchesOf(trackIds)[..|batches|]
    {
      var hi := if i + BatchSize <= |trackIds| then i + BatchSize else |trackIds|;
      batches := batches + [trackIds[i..hi]];
      i := i + BatchSize;
    }
  }
}
