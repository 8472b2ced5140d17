/** The flush rule every mutation phase follows: operations accumulate in a
    buffer, the buffer is written as one bulk request when it reaches
    `BatchSize` entries, and a non-empty remainder is written once more at
    the end of the phase. `Batches(ops)` is the sequence of requests that
    rule produces for the operations `ops`, in order. */
module Bulk {

  const BatchSize: nat := 1000

  function Batches<T>(ops: seq<T>): seq<seq<T>>
    decreases |ops|
  {
    if |ops| <= BatchSize then (if ops == [] then [] else [ops])
    else [ops[..BatchSize]] + Batches(ops[BatchSize..])
  }

  /** Concatenation of a sequence of batches, in order. */
  function Flatten<T>(bs: seq<seq<T>>): seq<T> {
    if bs == [] then [] else Flatten(bs[..|bs| - 1]) + bs[|bs| - 1]
  }

  /** Every batch holds exactly `BatchSize` operations. */
  predicate AllFull<T>(bs: seq<seq<T>>) {
    forall k :: 0 <= k < |bs| ==> |bs[k]| == BatchSize
  }

  /** The shape the flush rule guarantees: every batch is non-empty and at
      most `BatchSize` long, and every batch but the last is full. */
  predicate WellChunked<T>(bs: seq<seq<T>>) {
    forall k :: 0 <= k < |bs| ==>
      0 < |bs[k]| <= BatchSize && (k < |bs| - 1 ==> |bs[k]| == BatchSize)
  }

  lemma {:induction false} FlattenCons<T>(bs: seq<seq<T>>)
    requires bs != []
    ensures Flatten(bs) == bs[0] + Flatten(bs[1..])
    decreases |bs|
  {
    if |bs| > 1 {
      FlattenCons(bs[..|bs| - 1]);
      assert bs[..|bs| - 1][1..] == bs[1..][..|bs[1..]| - 1];
      assert bs[..|bs| - 1][0] == bs[0];
    } else {
      assert bs[..0] == [];
    }
  }

  /** Flattening distributes over concatenation. */
  lemma {:induction false} FlattenAppend<T>(a: seq<seq<T>>, b: seq<seq<T>>)
    ensures Flatten(a + b) == Flatten(a) + Flatten(b)
    decreases |b|
  {
    if b == [] {
      assert a + b == a;
    } else {
      var c := a + b;
      assert c[..|c| - 1] == a + b[..|b| - 1] && c[|c| - 1] == b[|b| - 1];
      FlattenAppend(a, b[..|b| - 1]);
    }
  }

  /** Nothing is dropped, duplicated or reordered, and every batch has the
      flush rule's shape; the number of requests is the ceiling of
      `|ops| / BatchSize`. */
  lemma {:induction false} BatchesShape<T>(ops: seq<T>)
    ensures Flatten(Batches(ops)) == ops
    ensures WellChunked(Batches(ops))
    ensures |Batches(ops)| == (|ops| + BatchSize - 1) / BatchSize
    decreases |ops|
  {
    var bs := Batches(ops);
    if |ops| <= BatchSize {
      if ops != [] {
        assert bs == [ops];
        assert Flatten(bs) == Flatten(bs[..0]) + ops;
      }
    } else {
      BatchesShape(ops[BatchSize..]);
      FlattenCons(bs);
      assert bs[1..] == Batches(ops[BatchSize..]);
      assert ops == ops[..BatchSize] + ops[BatchSize..];
    }
  }

  /** Full batches written first come out unchanged in front of the
      batches of whatever follows them. */
  lemma {:induction false} BatchesAfterFull<T>(full: seq<seq<T>>, rest: seq<T>)
    requires AllFull(full)
    ensures Batches(Flatten(full) + rest) == full + Batches(rest)
    decreases |full|
  {
    if full != [] {
      FlattenCons(full);
      var tail := Flatten(full[1..]) + rest;
      assert Flatten(full) + rest == full[0] + tail;
      assert (full[0] + tail)[..BatchSize] == full[0];
      assert (full[0] + tail)[BatchSize..] == tail;
      BatchesAfterFull(full[1..], rest);
      assert full == [full[0]] + full[1..];
      if tail == [] {
        assert full[0] + tail == full[0];
      } else {
        assert Batches(full[0] + tail) == [full[0]] + Batches(tail);
      }
    } else {
      assert Flatten(full) + rest == rest;
    }
  }

  /** The flush rule is the ONLY well-chunked cut of `ops`: any batches with
      that shape that concatenate to `ops` are `Batches(ops)`. */
  lemma BatchesUnique<T>(bs: seq<seq<T>>, ops: seq<T>)
    requires WellChunked(bs) && Flatten(bs) == ops
    ensures bs == Batches(ops)
  {
    if bs != [] {
      var full := bs[..|bs| - 1];
      var last := bs[|bs| - 1];
      assert AllFull(full);
      BatchesAfterFull(full, last);
      assert bs == full + [last];
    }
  }

  /** The batches written by a phase that stopped after writing the full
      batches `full` form a prefix of the batches the whole phase writes. */
  lemma FullBatchesArePrefix<T>(full: seq<seq<T>>, ops: seq<T>)
    requires AllFull(full)
    requires |Flatten(full)| <= |ops| && ops[..|Flatten(full)|] == Flatten(full)
    ensures |full| <= |Batches(ops)| && Batches(ops)[..|full|] == full
  {
    var rest := ops[|Flatten(full)|..];
    assert ops == Flatten(full) + rest;
    BatchesAfterFull(full, rest);
  }

  /** What the buffer loop leaves behind — full batches flushed, a short
      remainder still buffered — is exactly the flush rule. */
  lemma FinalFlush<T>(full: seq<seq<T>>, rest: seq<T>)
    requires AllFull(full) && |rest| < BatchSize
    ensures Batches(Flatten(full) + rest) == full + (if rest == [] then [] else [rest])
  {
    BatchesAfterFull(full, rest);
  }
}
