/** The store as the mutation generator sees it: the three write-model kinds
    it builds, and a collection whose `BulkWrite` records each request it is
    given and succeeds or fails as its failure oracle says. What the store
    then does with a request is not part of this model. */
module Store {
  import opened Bson
  import opened Bulk

  /** A write model, as built by the generator. The filter is always the
      document `{_id: id}`. */
  datatype WriteOp =
    | ReplaceOne(filter: seq<Element>, replacement: seq<Element>, upsert: bool)
    | UpdateOne(filter: seq<Element>, update: seq<Element>, upsert: bool)
    | DeleteOne(filter: seq<Element>)

  function IdFilter(id: int): seq<Element> {
    [Element("_id", Int(id))]
  }

  class Collection {
    /** The positions, counted from 0 in the order they are sent, of the
        bulk requests this collection refuses. */
    const failing: set<nat>
    /** Every bulk request sent to this collection, in order. */
    var requests: seq<seq<WriteOp>>

    constructor (failing: set<nat>)
      ensures this.failing == failing && requests == []
    {
      this.failing := failing;
      requests := [];
    }

    /** `collection.BulkWrite`: an empty request is refused by the driver
        without reaching the store; any other is recorded and fails or not
        according to whether its position is in `failing`. */
    method BulkWrite(bulk: seq<WriteOp>) returns (err: bool)
      modifies this
      ensures bulk == [] ==> err && requests == old(requests)
      ensures bulk != [] ==> err == (|old(requests)| in failing) && requests == old(requests) + [bulk]
    {
      if bulk == [] {
        err := true;
      } else {
        err := |requests| in failing;
        requests := requests + [bulk];
      }
    }
  }

  /** What a run that plans the bulk requests `bs` leaves in the request
      log (`before` on entry, `after` on return): on success, exactly `bs`,
      all accepted; on a write error, a non-empty prefix of `bs` whose last
      request failed and whose earlier ones were all accepted — nothing is
      written after a failure. */
  predicate WroteBatches(before: seq<seq<WriteOp>>, after: seq<seq<WriteOp>>,
                         bs: seq<seq<WriteOp>>, failing: set<nat>, err: bool)
  {
    |before| <= |after| && after[..|before|] == before &&
    var written := after[|before|..];
    (forall k :: |before| <= k < |after| - 1 ==> k !in failing) &&
    if err then
      0 < |written| <= |bs| && written == bs[..|written|] && |after| - 1 in failing
    else
      written == bs && (0 < |written| ==> |after| - 1 !in failing)
  }

  /** What a phase that plans the operations `planned` leaves in the request
      log: its flush-rule batches, up to and including the first failed
      one. */
  predicate WroteUntilFailure(before: seq<seq<WriteOp>>, after: seq<seq<WriteOp>>,
                              planned: seq<WriteOp>, failing: set<nat>, err: bool)
  {
    WroteBatches(before, after, Batches(planned), failing, err)
  }

  /** Two runs in a row, the second started only when the first succeeded,
      wrote the first run's requests followed by the second's, up to the
      first failure. */
  lemma WroteInSequence(before: seq<seq<WriteOp>>, mid: seq<seq<WriteOp>>, after: seq<seq<WriteOp>>,
                        bs1: seq<seq<WriteOp>>, bs2: seq<seq<WriteOp>>, failing: set<nat>, err: bool)
    requires WroteBatches(before, mid, bs1, failing, false)
    requires WroteBatches(mid, after, bs2, failing, err)
    ensures WroteBatches(before, after, bs1 + bs2, failing, err)
  {
    var w1, w2 := mid[|before|..], after[|mid|..];
    assert after == before + w1 + w2 by {
      assert after == mid + w2;
      assert mid == before + w1;
    }
    assert after[|before|..] == w1 + w2;
    if err {
      assert (bs1 + bs2)[..|w1 + w2|] == bs1 + bs2[..|w2|];
    }
  }

  /** The operations written by two runs in a row are those of the first
      run followed by those of the second. */
  lemma WrittenInSequence(before: seq<seq<WriteOp>>, mid: seq<seq<WriteOp>>, after: seq<seq<WriteOp>>)
    requires |before| <= |mid| <= |after| && mid[..|before|] == before && after[..|mid|] == mid
    ensures Flatten(after[|before|..]) == Flatten(mid[|before|..]) + Flatten(after[|mid|..])
  {
    assert after[|before|..] == mid[|before|..] + after[|mid|..];
    FlattenAppend(mid[|before|..], after[|mid|..]);
  }

  /** A run that stopped on a failure wrote a failing prefix of anything
      that was planned to follow it, too. */
  lemma WroteBeforeFailure(before: seq<seq<WriteOp>>, after: seq<seq<WriteOp>>,
                           bs1: seq<seq<WriteOp>>, bs2: seq<seq<WriteOp>>, failing: set<nat>)
    requires WroteBatches(before, after, bs1, failing, true)
    ensures WroteBatches(before, after, bs1 + bs2, failing, true)
  {
    var w := after[|before|..];
    assert (bs1 + bs2)[..|w|] == bs1[..|w|];
  }

  /** A phase that flushed the full batches `full`, the last of which
      failed, wrote a failing prefix of its planned batches. */
  lemma FlushFailed(before: seq<seq<WriteOp>>, full: seq<seq<WriteOp>>, planned: seq<WriteOp>,
                    failing: set<nat>)
    requires AllFull(full) && full != []
    requires |Flatten(full)| <= |planned| && planned[..|Flatten(full)|] == Flatten(full)
    requires forall k :: |before| <= k < |before| + |full| - 1 ==> k !in failing
    requires |before| + |full| - 1 in failing
    ensures WroteUntilFailure(before, before + full, planned, failing, true)
  {
    FullBatchesArePrefix(full, planned);
    assert (before + full)[..|before|] == before && (before + full)[|before|..] == full;
  }

  /** A phase that flushed the full batches `full` and then wrote its
      remainder `rest` (if any) wrote exactly its planned batches, with the
      error of the last write. */
  lemma FinalWrite(before: seq<seq<WriteOp>>, full: seq<seq<WriteOp>>, rest: seq<WriteOp>,
                   planned: seq<WriteOp>, failing: set<nat>, err: bool)
    requires AllFull(full) && |rest| < BatchSize && Flatten(full) + rest == planned
    requires forall k :: |before| <= k < |before| + |full| ==> k !in failing
    requires err == (rest != [] && |before| + |full| in failing)
    ensures WroteUntilFailure(before, before + full + (if rest == [] then [] else [rest]),
                              planned, failing, err)
  {
    FinalFlush(full, rest);
    if rest == [] {
      assert Flatten(full) + rest == Flatten(full);
      FinalWriteFull(before, full, planned, failing);
      assert before + full + [] == before + full;
    } else {
      FinalWriteRest(before, full, rest, planned, failing);
    }
  }

  lemma FinalWriteFull(before: seq<seq<WriteOp>>, full: seq<seq<WriteOp>>,
                       planned: seq<WriteOp>, failing: set<nat>)
    requires Batches(planned) == full
    requires forall k :: |before| <= k < |before| + |full| ==> k !in failing
    ensures WroteUntilFailure(before, before + full, planned, failing, false)
  {
    WroteAll(before, before + full, full, planned, failing, false);
  }

  lemma FinalWriteRest(before: seq<seq<WriteOp>>, full: seq<seq<WriteOp>>, rest: seq<WriteOp>,
                       planned: seq<WriteOp>, failing: set<nat>)
    requires Batches(planned) == full + [rest]
    requires forall k :: |before| <= k < |before| + |full| ==> k !in failing
    ensures WroteUntilFailure(before, before + full + [rest], planned, failing,
                              |before| + |full| in failing)
  {
    var after := before + (full + [rest]);
    assert |after| - 1 == |before| + |full|;
    WroteAll(before, after, full + [rest], planned, failing, |before| + |full| in failing);
    assert before + full + [rest] == after;
  }

  lemma WroteAll(before: seq<seq<WriteOp>>, after: seq<seq<WriteOp>>, written: seq<seq<WriteOp>>,
                 planned: seq<WriteOp>, failing: set<nat>, err: bool)
    requires after == before + written && Batches(planned) == written
    requires forall k :: |before| <= k < |after| - 1 ==> k !in failing
    requires err == (0 < |written| && |after| - 1 in failing)
    ensures WroteUntilFailure(before, after, planned, failing, err)
  {
    assert after[..|before|] == before && after[|before|..] == written;
    assert written[..|written|] == written;
  }

  /** The loop invariant shared by every phase: the log holds `before`
      followed by the full batches flushed so far, all accepted, and those
      batches followed by the buffer are the write models planned so far. */
  ghost predicate Buffered(before: seq<seq<WriteOp>>, requests: seq<seq<WriteOp>>, failing: set<nat>,
                           flushed: seq<seq<WriteOp>>, bulk: seq<WriteOp>, ops: seq<WriteOp>)
  {
    requests == before + flushed && AllFull(flushed) &&
    (forall k :: |before| <= k < |before| + |flushed| ==> k !in failing) &&
    Flatten(flushed) + bulk == ops
  }

  /** Buffering one more write model. */
  lemma BufferPush(before: seq<seq<WriteOp>>, requests: seq<seq<WriteOp>>, failing: set<nat>,
                   flushed: seq<seq<WriteOp>>, bulk: seq<WriteOp>, ops: seq<WriteOp>, op: WriteOp)
    requires Buffered(before, requests, failing, flushed, bulk, ops)
    ensures Buffered(before, requests, failing, flushed, bulk + [op], ops + [op])
  {
    assert Flatten(flushed) + (bulk + [op]) == (Flatten(flushed) + bulk) + [op];
  }

  /** Flushing a full buffer that the store accepted. */
  lemma BufferFlush(before: seq<seq<WriteOp>>, requests: seq<seq<WriteOp>>, failing: set<nat>,
                    flushed: seq<seq<WriteOp>>, bulk: seq<WriteOp>, ops: seq<WriteOp>)
    requires Buffered(before, requests, failing, flushed, bulk, ops)
    requires |bulk| == BatchSize && |requests| !in failing
    ensures Buffered(before, requests + [bulk], failing, flushed + [bulk], [], ops)
  {
    assert (flushed + [bulk])[..|flushed|] == flushed;
    assert Flatten(flushed + [bulk]) == Flatten(flushed) + bulk;
    assert Flatten(flushed + [bulk]) + [] == Flatten(flushed + [bulk]);
  }

  /** Flushing a full buffer that the store refused ends the phase with a
      failing prefix of its planned batches, holding exactly the write
      models planned so far. */
  lemma BufferFlushFailed(before: seq<seq<WriteOp>>, requests: seq<seq<WriteOp>>, failing: set<nat>,
                          flushed: seq<seq<WriteOp>>, bulk: seq<WriteOp>, ops: seq<WriteOp>,
                          planned: seq<WriteOp>)
    requires Buffered(before, requests, failing, flushed, bulk, ops)
    requires |bulk| == BatchSize && |requests| in failing
    requires |ops| <= |planned| && planned[..|ops|] == ops
    ensures WroteUntilFailure(before, requests + [bulk], planned, failing, true)
    ensures Flatten((requests + [bulk])[|before|..]) == ops
  {
    var full := flushed + [bulk];
    assert full[..|flushed|] == flushed;
    assert Flatten(full) == ops;
    assert AllFull(full);
    assert requests + [bulk] == before + full;
    FlushFailed(before, full, planned, failing);
    assert (requests + [bulk])[|before|..] == full;
  }

  /** Flushing the remainder, if any, ends the phase with exactly its
      planned batches, or with a failing prefix of them. */
  lemma BufferFinal(before: seq<seq<WriteOp>>, requests: seq<seq<WriteOp>>, failing: set<nat>,
                    flushed: seq<seq<WriteOp>>, bulk: seq<WriteOp>, planned: seq<WriteOp>, err: bool)
    requires Buffered(before, requests, failing, flushed, bulk, planned)
    requires |bulk| < BatchSize && err == (bulk != [] && |requests| in failing)
    ensures var after := requests + (if bulk == [] then [] else [bulk]);
      WroteUntilFailure(before, after, planned, failing, err) &&
      Flatten(after[|before|..]) == planned
  {
    FinalWrite(before, flushed, bulk, planned, failing, err);
    var written := flushed + (if bulk == [] then [] else [bulk]);
    assert requests + (if bulk == [] then [] else [bulk]) == before + written;
    assert (before + written)[|before|..] == written;
    if bulk != [] {
      assert written[..|flushed|] == flushed;
      assert Flatten(written) == Flatten(flushed) + bulk;
    } else {
      assert written == flushed && Flatten(flushed) + bulk == Flatten(flushed);
    }
  }
}
