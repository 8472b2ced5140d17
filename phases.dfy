/** The three mutation phases. Each phase buffers its write models, flushes
    the buffer as one bulk request when it holds `BatchSize` entries,
    flushes a non-empty remainder at the end, and returns at the first
    failed request. The generate and remove loops are the same in both
    variants of the harness; the update loop of `generate.go` picks one of
    three update documents per iteration, and the one of `main.go` always
    uses the first, so both are `DataUpdate` with different inputs. */
module Phases {
  import opened Bson
  import opened Bulk
  import opened Store
  import opened Registry

  /** What a generate phase over `ids`, started with registry `m0`, marker
      counter `c0` and request log `before`, leaves behind when it returns
      `err` after `done` iterations: registry and counter as `GenerateUpTo`
      says after those iterations (all of them unless a write failed), and
      in the log the batches of `GenerateOps` up to the first failed
      request, together holding exactly the write models of the iterations
      that ran. */
  ghost predicate Generated(ids: seq<int>, m0: map<int, int>, c0: int, before: seq<seq<WriteOp>>,
                            entries: map<int, int>, counter: int, after: seq<seq<WriteOp>>,
                            failing: set<nat>, err: bool, done: nat)
  {
    done <= |ids| && (!err ==> done == |ids|) &&
    entries == GenerateUpTo(done, ids, m0, c0).markers &&
    counter == GenerateUpTo(done, ids, m0, c0).counter &&
    WroteUntilFailure(before, after, GenerateOps(|ids|, ids, m0, c0), failing, err) &&
    Flatten(after[|before|..]) == GenerateOps(done, ids, m0, c0)
  }

  /** The generate loop's invariant after `i` iterations: registry and
      marker counter as `GenerateUpTo` says, and its write models flushed
      (all accepted) or buffered. */
  ghost predicate Generating(ids: seq<int>, m0: map<int, int>, c0: int, before: seq<seq<WriteOp>>, i: nat,
                             entries: map<int, int>, counter: int, requests: seq<seq<WriteOp>>,
                             failing: set<nat>, flushed: seq<seq<WriteOp>>, bulk: seq<WriteOp>)
  {
    i <= |ids| && |bulk| < BatchSize &&
    entries == GenerateUpTo(i, ids, m0, c0).markers && counter == GenerateUpTo(i, ids, m0, c0).counter &&
    Buffered(before, requests, failing, flushed, bulk, GenerateOps(i, ids, m0, c0))
  }

  /** An iteration whose id is tracked changes nothing. */
  lemma GenerateSkip(ids: seq<int>, m0: map<int, int>, c0: int, before: seq<seq<WriteOp>>, i: nat,
                     entries: map<int, int>, counter: int, requests: seq<seq<WriteOp>>,
                     failing: set<nat>, flushed: seq<seq<WriteOp>>, bulk: seq<WriteOp>)
    requires Generating(ids, m0, c0, before, i, entries, counter, requests, failing, flushed, bulk)
    requires i < |ids| && ids[i] in entries
    ensures Generating(ids, m0, c0, before, i + 1, entries, counter, requests, failing, flushed, bulk)
  {
  }

  /** An iteration whose id is new records it with the next marker and
      buffers its replace; the buffer is then at most full. */
  lemma GenerateNew(ids: seq<int>, m0: map<int, int>, c0: int, before: seq<seq<WriteOp>>, i: nat,
                    entries: map<int, int>, counter: int, requests: seq<seq<WriteOp>>,
                    failing: set<nat>, flushed: seq<seq<WriteOp>>, bulk: seq<WriteOp>)
    requires Generating(ids, m0, c0, before, i, entries, counter, requests, failing, flushed, bulk)
    requires i < |ids| && ids[i] !in entries
    ensures var op := ReplaceWithMarker(ids[i], counter + 1);
      |bulk + [op]| <= BatchSize &&
      (|bulk + [op]| < BatchSize ==>
         Generating(ids, m0, c0, before, i + 1, entries[ids[i] := counter + 1], counter + 1, requests,
                    failing, flushed, bulk + [op])) &&
      Buffered(before, requests, failing, flushed, bulk + [op], GenerateOps(i + 1, ids, m0, c0))
  {
    var s, op := GenerateUpTo(i, ids, m0, c0), ReplaceWithMarker(ids[i], counter + 1);
    assert GenerateUpTo(i + 1, ids, m0, c0) ==
           GenState(entries[ids[i] := counter + 1], counter + 1, s.created + [Allocation(ids[i], counter + 1)],
                    s.ops + [op]);
    BufferPush(before, requests, failing, flushed, bulk, s.ops, op);
  }

  /** A full buffer accepted by the store is flushed. */
  lemma GenerateFlushed(ids: seq<int>, m0: map<int, int>, c0: int, before: seq<seq<WriteOp>>, i: nat,
                        requests: seq<seq<WriteOp>>, failing: set<nat>, flushed: seq<seq<WriteOp>>,
                        bulk: seq<WriteOp>)
    requires 0 < i <= |ids|
    requires Buffered(before, requests, failing, flushed, bulk, GenerateOps(i, ids, m0, c0))
    requires |bulk| == BatchSize && |requests| !in failing
    ensures var s := GenerateUpTo(i, ids, m0, c0);
      Generating(ids, m0, c0, before, i, s.markers, s.counter, requests + [bulk], failing,
                 flushed + [bulk], [])
  {
    BufferFlush(before, requests, failing, flushed, bulk, GenerateOps(i, ids, m0, c0));
  }

  /** A full buffer refused by the store ends the phase. */
  lemma GenerateStopped(ids: seq<int>, m0: map<int, int>, c0: int, before: seq<seq<WriteOp>>,
                        i: nat, requests: seq<seq<WriteOp>>, failing: set<nat>,
                        flushed: seq<seq<WriteOp>>, bulk: seq<WriteOp>)
    requires i <= |ids|
    requires Buffered(before, requests, failing, flushed, bulk, GenerateOps(i, ids, m0, c0))
    requires |bulk| == BatchSize && |requests| in failing
    ensures var s := GenerateUpTo(i, ids, m0, c0);
      Generated(ids, m0, c0, before, s.markers, s.counter, requests + [bulk], failing, true, i)
  {
    GeneratePrefix(i, |ids|, ids, m0, c0);
    BufferFlushFailed(before, requests, failing, flushed, bulk, GenerateOps(i, ids, m0, c0),
                      GenerateOps(|ids|, ids, m0, c0));
  }

  /** Flushing the remainder ends the phase after all its iterations. */
  lemma GenerateFinished(ids: seq<int>, m0: map<int, int>, c0: int, before: seq<seq<WriteOp>>,
                         requests: seq<seq<WriteOp>>, failing: set<nat>,
                         flushed: seq<seq<WriteOp>>, bulk: seq<WriteOp>, err: bool)
    requires Buffered(before, requests, failing, flushed, bulk, GenerateOps(|ids|, ids, m0, c0))
    requires |bulk| < BatchSize && err == (bulk != [] && |requests| in failing)
    ensures var s := GenerateUpTo(|ids|, ids, m0, c0);
      Generated(ids, m0, c0, before, s.markers, s.counter,
                requests + (if bulk == [] then [] else [bulk]), failing, err, |ids|)
  {
    BufferFinal(before, requests, failing, flushed, bulk, GenerateOps(|ids|, ids, m0, c0), err);
  }

  /** `dataGenerate` / `DataGenerate` over the ids `ids` (one per
      iteration): an id that is already tracked is skipped; a new id takes
      the next value of the marker counter, is recorded, and a
      replace-with-upsert of `{_id: id, u: marker}` is buffered. */
  method DataGenerate(coll: Collection, g: Counters, ids: seq<int>, markers: Markers)
    returns (err: bool, ghost done: nat)
    modifies coll, g`marker, markers
    ensures Generated(ids, old(markers.entries), old(g.marker), old(coll.requests),
                      markers.entries, g.marker, coll.requests, coll.failing, err, done)
  {
    ghost var before := coll.requests;
    ghost var m0, c0 := markers.entries, g.marker;
    ghost var flushed: seq<seq<WriteOp>> := [];
    var bulk: seq<WriteOp> := [];
    var i := 0;
    err := false;
    assert Flatten(flushed) + bulk == [];
    while i < |ids|
      invariant Generating(ids, m0, c0, before, i, markers.entries, g.marker, coll.requests, coll.failing,
                           flushed, bulk)
    {
      var id := ids[i];
      if id in markers.entries {
        GenerateSkip(ids, m0, c0, before, i, markers.entries, g.marker, coll.requests, coll.failing,
                     flushed, bulk);
      } else {
        GenerateNew(ids, m0, c0, before, i, markers.entries, g.marker, coll.requests, coll.failing,
                    flushed, bulk);
        g.marker := g.marker + 1;
        var marker := g.marker;
        markers.entries := markers.entries[id := marker];
        bulk := bulk + [ReplaceWithMarker(id, marker)];
        if |bulk| == BatchSize {
          ghost var requests := coll.requests;
          err := coll.BulkWrite(bulk);
          if err {
            done := i + 1;
            GenerateStopped(ids, m0, c0, before, i + 1, requests, coll.failing, flushed, bulk);
            return;
          }
          GenerateFlushed(ids, m0, c0, before, i + 1, requests, coll.failing, flushed, bulk);
          flushed := flushed + [bulk];
          bulk := [];
        }
      }
      i := i + 1;
    }
    done := |ids|;
    ghost var requests := coll.requests;
    if |bulk| > 0 {
      err := coll.BulkWrite(bulk);
    }
    GenerateFinished(ids, m0, c0, before, requests, coll.failing, flushed, bulk, err);
  }

  // ---------------------------------------------------------------------
  // Remove phase

  /** What a remove phase over `ids`, started with registry `m0` and
      request log `before`, leaves behind when it returns `err` after
      `done` iterations: the registry as `RemoveUpTo` says, and in the log
      the batches of its deletes up to the first failed request. */
  ghost predicate Removed(ids: seq<int>, m0: map<int, int>, before: seq<seq<WriteOp>>,
                          entries: map<int, int>, after: seq<seq<WriteOp>>, failing: set<nat>,
                          err: bool, done: nat)
  {
    done <= |ids| && (!err ==> done == |ids|) &&
    entries == RemoveUpTo(done, ids, m0).markers &&
    WroteUntilFailure(before, after, RemoveUpTo(|ids|, ids, m0).ops, failing, err) &&
    Flatten(after[|before|..]) == RemoveUpTo(done, ids, m0).ops
  }

  /** The remove loop's invariant after `i` iterations. */
  ghost predicate Removing(ids: seq<int>, m0: map<int, int>, before: seq<seq<WriteOp>>, i: nat,
                           entries: map<int, int>, requests: seq<seq<WriteOp>>, failing: set<nat>,
                           flushed: seq<seq<WriteOp>>, bulk: seq<WriteOp>)
  {
    i <= |ids| && |bulk| < BatchSize &&
    entries == RemoveUpTo(i, ids, m0).markers &&
    Buffered(before, requests, failing, flushed, bulk, RemoveUpTo(i, ids, m0).ops)
  }

  /** An iteration drops its id and buffers its delete. */
  lemma RemoveNext(ids: seq<int>, m0: map<int, int>, before: seq<seq<WriteOp>>, i: nat,
                   entries: map<int, int>, requests: seq<seq<WriteOp>>, failing: set<nat>,
                   flushed: seq<seq<WriteOp>>, bulk: seq<WriteOp>)
    requires Removing(ids, m0, before, i, entries, requests, failing, flushed, bulk)
    requires i < |ids|
    ensures var op := DeleteOne(IdFilter(ids[i]));
      |bulk + [op]| <= BatchSize &&
      (|bulk + [op]| < BatchSize ==>
         Removing(ids, m0, before, i + 1, entries - {ids[i]}, requests, failing, flushed, bulk + [op])) &&
      Buffered(before, requests, failing, flushed, bulk + [op], RemoveUpTo(i + 1, ids, m0).ops)
  {
    var s, op := RemoveUpTo(i, ids, m0), DeleteOne(IdFilter(ids[i]));
    assert RemoveUpTo(i + 1, ids, m0) == RemState(entries - {ids[i]}, s.ops + [op]);
    BufferPush(before, requests, failing, flushed, bulk, s.ops, op);
  }

  lemma RemoveFlushed(ids: seq<int>, m0: map<int, int>, before: seq<seq<WriteOp>>, i: nat,
                      requests: seq<seq<WriteOp>>, failing: set<nat>, flushed: seq<seq<WriteOp>>,
                      bulk: seq<WriteOp>)
    requires 0 < i <= |ids|
    requires Buffered(before, requests, failing, flushed, bulk, RemoveUpTo(i, ids, m0).ops)
    requires |bulk| == BatchSize && |requests| !in failing
    ensures Removing(ids, m0, before, i, RemoveUpTo(i, ids, m0).markers, requests + [bulk], failing,
                     flushed + [bulk], [])
  {
    BufferFlush(before, requests, failing, flushed, bulk, RemoveUpTo(i, ids, m0).ops);
  }

  lemma RemoveStopped(ids: seq<int>, m0: map<int, int>, before: seq<seq<WriteOp>>, i: nat,
                      requests: seq<seq<WriteOp>>, failing: set<nat>, flushed: seq<seq<WriteOp>>,
                      bulk: seq<WriteOp>)
    requires i <= |ids|
    requires Buffered(before, requests, failing, flushed, bulk, RemoveUpTo(i, ids, m0).ops)
    requires |bulk| == BatchSize && |requests| in failing
    ensures Removed(ids, m0, before, RemoveUpTo(i, ids, m0).markers, requests + [bulk], failing, true, i)
  {
    RemovePrefix(i, |ids|, ids, m0);
    BufferFlushFailed(before, requests, failing, flushed, bulk, RemoveUpTo(i, ids, m0).ops,
                      RemoveUpTo(|ids|, ids, m0).ops);
  }

  lemma RemoveFinished(ids: seq<int>, m0: map<int, int>, before: seq<seq<WriteOp>>,
                       requests: seq<seq<WriteOp>>, failing: set<nat>, flushed: seq<seq<WriteOp>>,
                       bulk: seq<WriteOp>, err: bool)
    requires Buffered(before, requests, failing, flushed, bulk, RemoveUpTo(|ids|, ids, m0).ops)
    requires |bulk| < BatchSize && err == (bulk != [] && |requests| in failing)
    ensures Removed(ids, m0, before, RemoveUpTo(|ids|, ids, m0).markers,
                    requests + (if bulk == [] then [] else [bulk]), failing, err, |ids|)
  {
    BufferFinal(before, requests, failing, flushed, bulk, RemoveUpTo(|ids|, ids, m0).ops, err);
  }

  /** `DataRemove` over the ids `ids` (one per iteration): each id is
      deleted from the registry and a delete of `{_id: id}` is buffered,
      whether or not the id was tracked. */
  method DataRemove(coll: Collection, ids: seq<int>, markers: Markers)
    returns (err: bool, ghost done: nat)
    modifies coll, markers
    ensures Removed(ids, old(markers.entries), old(coll.requests), markers.entries, coll.requests,
                    coll.failing, err, done)
  {
    ghost var before := coll.requests;
    ghost var m0 := markers.entries;
    ghost var flushed: seq<seq<WriteOp>> := [];
    var bulk: seq<WriteOp> := [];
    var i := 0;
    err := false;
    assert Flatten(flushed) + bulk == [];
    while i < |ids|
      invariant Removing(ids, m0, before, i, markers.entries, coll.requests, coll.failing, flushed, bulk)
    {
      var id := ids[i];
      RemoveNext(ids, m0, before, i, markers.entries, coll.requests, coll.failing, flushed, bulk);
      markers.entries := markers.entries - {id};
      bulk := bulk + [DeleteOne(IdFilter(id))];
      if |bulk| == BatchSize {
        ghost var requests := coll.requests;
        err := coll.BulkWrite(bulk);
        if err {
          done := i + 1;
          RemoveStopped(ids, m0, before, i + 1, requests, coll.failing, flushed, bulk);
          return;
        }
        RemoveFlushed(ids, m0, before, i + 1, requests, coll.failing, flushed, bulk);
        flushed := flushed + [bulk];
        bulk := [];
      }
      i := i + 1;
    }
    done := |ids|;
    ghost var requests := coll.requests;
    if |bulk| > 0 {
      err := coll.BulkWrite(bulk);
    }
    RemoveFinished(ids, m0, before, requests, coll.failing, flushed, bulk, err);
  }

  // ---------------------------------------------------------------------
  // Update phase

  /** What an update phase over `inputs`, started with registry `m` (which
      it only reads), tag counter `uid0` and request log `before`, leaves
      behind when it returns `err` after `done` iterations: the tag counter
      advanced once per iteration that ran, skipped ones included, and in
      the log the batches of `UpdateOps` up to the first failed request.
      A failed write ends the phase where it happens: a full batch fails
      right after the tracked iteration that filled it, any other batch
      (the short last one) after every iteration has run. */
  ghost predicate Updated(inputs: seq<UpdateInput>, m: map<int, int>, uid0: int, before: seq<seq<WriteOp>>,
                          uid: int, after: seq<seq<WriteOp>>, failing: set<nat>, err: bool, done: nat)
  {
    done <= |inputs| && (!err ==> done == |inputs|) &&
    (err ==> 0 < done && |before| < |after| &&
             (|after[|after| - 1]| == BatchSize ==> inputs[done - 1].id in m) &&
             (|after[|after| - 1]| != BatchSize ==> done == |inputs|)) &&
    uid == uid0 + done &&
    WroteUntilFailure(before, after, UpdateOps(|inputs|, inputs, m, uid0), failing, err) &&
    Flatten(after[|before|..]) == UpdateOps(done, inputs, m, uid0)
  }

  /** The update loop's invariant after `i` iterations. */
  ghost predicate Updating(inputs: seq<UpdateInput>, m: map<int, int>, uid0: int, before: seq<seq<WriteOp>>,
                           i: nat, uid: int, requests: seq<seq<WriteOp>>, failing: set<nat>,
                           flushed: seq<seq<WriteOp>>, bulk: seq<WriteOp>)
  {
    i <= |inputs| && |bulk| < BatchSize && uid == uid0 + i &&
    Buffered(before, requests, failing, flushed, bulk, UpdateOps(i, inputs, m, uid0))
  }

  /** An iteration whose id is untracked only advances the tag counter. */
  lemma UpdateSkip(inputs: seq<UpdateInput>, m: map<int, int>, uid0: int, before: seq<seq<WriteOp>>,
                   i: nat, uid: int, requests: seq<seq<WriteOp>>, failing: set<nat>,
                   flushed: seq<seq<WriteOp>>, bulk: seq<WriteOp>)
    requires Updating(inputs, m, uid0, before, i, uid, requests, failing, flushed, bulk)
    requires i < |inputs| && inputs[i].id !in m
    ensures Updating(inputs, m, uid0, before, i + 1, uid + 1, requests, failing, flushed, bulk)
  {
  }

  /** An iteration whose id is tracked buffers the update built with the
      id's marker and the iteration's tag. */
  lemma UpdateNext(inputs: seq<UpdateInput>, m: map<int, int>, uid0: int, before: seq<seq<WriteOp>>,
                   i: nat, uid: int, requests: seq<seq<WriteOp>>, failing: set<nat>,
                   flushed: seq<seq<WriteOp>>, bulk: seq<WriteOp>)
    requires Updating(inputs, m, uid0, before, i, uid, requests, failing, flushed, bulk)
    requires i < |inputs| && inputs[i].id in m
    ensures var op := UpdateWithMarker(inputs[i], uid + 1, m[inputs[i].id]);
      |bulk + [op]| <= BatchSize &&
      (|bulk + [op]| < BatchSize ==>
         Updating(inputs, m, uid0, before, i + 1, uid + 1, requests, failing, flushed, bulk + [op])) &&
      Buffered(before, requests, failing, flushed, bulk + [op], UpdateOps(i + 1, inputs, m, uid0))
  {
    var op := UpdateWithMarker(inputs[i], uid + 1, m[inputs[i].id]);
    assert UpdateOps(i + 1, inputs, m, uid0) == UpdateOps(i, inputs, m, uid0) + [op];
    BufferPush(before, requests, failing, flushed, bulk, UpdateOps(i, inputs, m, uid0), op);
  }

  lemma UpdateFlushed(inputs: seq<UpdateInput>, m: map<int, int>, uid0: int, before: seq<seq<WriteOp>>,
                      i: nat, requests: seq<seq<WriteOp>>, failing: set<nat>,
                      flushed: seq<seq<WriteOp>>, bulk: seq<WriteOp>)
    requires 0 < i <= |inputs|
    requires Buffered(before, requests, failing, flushed, bulk, UpdateOps(i, inputs, m, uid0))
    requires |bulk| == BatchSize && |requests| !in failing
    ensures Updating(inputs, m, uid0, before, i, uid0 + i, requests + [bulk], failing, flushed + [bulk], [])
  {
    BufferFlush(before, requests, failing, flushed, bulk, UpdateOps(i, inputs, m, uid0));
  }

  lemma UpdateStopped(inputs: seq<UpdateInput>, m: map<int, int>, uid0: int, before: seq<seq<WriteOp>>,
                      i: nat, requests: seq<seq<WriteOp>>, failing: set<nat>,
                      flushed: seq<seq<WriteOp>>, bulk: seq<WriteOp>)
    requires 0 < i <= |inputs| && inputs[i - 1].id in m
    requires Buffered(before, requests, failing, flushed, bulk, UpdateOps(i, inputs, m, uid0))
    requires |bulk| == BatchSize && |requests| in failing
    ensures Updated(inputs, m, uid0, before, uid0 + i, requests + [bulk], failing, true, i)
  {
    UpdatePrefix(i, |inputs|, inputs, m, uid0);
    BufferFlushFailed(before, requests, failing, flushed, bulk, UpdateOps(i, inputs, m, uid0),
                      UpdateOps(|inputs|, inputs, m, uid0));
  }

  lemma UpdateFinished(inputs: seq<UpdateInput>, m: map<int, int>, uid0: int, before: seq<seq<WriteOp>>,
                       requests: seq<seq<WriteOp>>, failing: set<nat>,
                       flushed: seq<seq<WriteOp>>, bulk: seq<WriteOp>, err: bool)
    requires Buffered(before, requests, failing, flushed, bulk, UpdateOps(|inputs|, inputs, m, uid0))
    requires |bulk| < BatchSize && err == (bulk != [] && |requests| in failing)
    ensures Updated(inputs, m, uid0, before, uid0 + |inputs|,
                    requests + (if bulk == [] then [] else [bulk]), failing, err, |inputs|)
  {
    BufferFinal(before, requests, failing, flushed, bulk, UpdateOps(|inputs|, inputs, m, uid0), err);
  }

  /** `dataUpdate` / `DataUpdate` over `inputs` (one per iteration): every
      iteration takes the next value of the tag counter and names its tag
      `"u<uid>"`; an iteration whose id is untracked is then skipped, and
      one whose id is tracked buffers an update without upsert of `{_id:
      id}` that sets the tag to the id's marker, shaped as its input says.
      The registry is only read. */
  method DataUpdate(coll: Collection, g: Counters, inputs: seq<UpdateInput>, markers: Markers)
    returns (err: bool, ghost done: nat)
    modifies coll, g`uid
    ensures Updated(inputs, markers.entries, old(g.uid), old(coll.requests), g.uid, coll.requests,
                    coll.failing, err, done)
  {
    ghost var before := coll.requests;
    ghost var uid0 := g.uid;
    ghost var flushed: seq<seq<WriteOp>> := [];
    var bulk: seq<WriteOp> := [];
    var i := 0;
    err := false;
    assert Flatten(flushed) + bulk == [];
    while i < |inputs|
      invariant Updating(inputs, markers.entries, uid0, before, i, g.uid, coll.requests, coll.failing,
                         flushed, bulk)
    {
      var u := inputs[i];
      if u.id !in markers.entries {
        UpdateSkip(inputs, markers.entries, uid0, before, i, g.uid, coll.requests, coll.failing,
                   flushed, bulk);
        g.uid := g.uid + 1;
      } else {
        UpdateNext(inputs, markers.entries, uid0, before, i, g.uid, coll.requests, coll.failing,
                   flushed, bulk);
        g.uid := g.uid + 1;
        var marker := markers.entries[u.id];
        bulk := bulk + [UpdateWithMarker(u, g.uid, marker)];
        if |bulk| == BatchSize {
          ghost var requests := coll.requests;
          err := coll.BulkWrite(bulk);
          if err {
            done := i + 1;
            UpdateStopped(inputs, markers.entries, uid0, before, i + 1, requests, coll.failing, flushed, bulk);
            return;
          }
          UpdateFlushed(inputs, markers.entries, uid0, before, i + 1, requests, coll.failing, flushed, bulk);
          flushed := flushed + [bulk];
          bulk := [];
        }
      }
      i := i + 1;
    }
    done := |inputs|;
    ghost var requests := coll.requests;
    if |bulk| > 0 {
      err := coll.BulkWrite(bulk);
    }
    UpdateFinished(inputs, markers.entries, uid0, before, requests, coll.failing, flushed, bulk, err);
  }

  /** The tag counter is shared by every update phase: a phase started
      at or after the end of an earlier one (its tag counter `uid2` at or
      above the `uid1` the earlier one left) plans no tag name the earlier
      one planned, whether or not either failed. Each phase wrote the
      updates of its plan's iterations, tagged with those numbers. */
  lemma UpdatesNeverReuseTags(inputs1: seq<UpdateInput>, m1: map<int, int>, uid0: int,
                              before1: seq<seq<WriteOp>>, uid1: int, after1: seq<seq<WriteOp>>,
                              err1: bool, done1: nat,
                              inputs2: seq<UpdateInput>, m2: map<int, int>, uid2: int,
                              before2: seq<seq<WriteOp>>, uid3: int, after2: seq<seq<WriteOp>>,
                              failing: set<nat>, err2: bool, done2: nat)
    requires Updated(inputs1, m1, uid0, before1, uid1, after1, failing, err1, done1)
    requires Updated(inputs2, m2, uid2, before2, uid3, after2, failing, err2, done2)
    requires uid1 <= uid2
    ensures TagsApart(UpdatePlan(done1, inputs1, m1), uid0, UpdatePlan(done2, inputs2, m2), uid2)
  {
    PlansTagsApart(done1, inputs1, m1, uid0, done2, inputs2, m2, uid2);
  }

  /** A generate phase over ids that are new and pairwise distinct
      advances the marker counter by exactly the iterations that ran. */
  lemma GeneratedFresh(ids: seq<int>, m0: map<int, int>, c0: int, before: seq<seq<WriteOp>>,
                       entries: map<int, int>, counter: int, after: seq<seq<WriteOp>>,
                       failing: set<nat>, err: bool, done: nat)
    requires Generated(ids, m0, c0, before, entries, counter, after, failing, err, done)
    requires FreshIds(|ids|, ids, m0)
    ensures counter == c0 + done
  {
    assert FreshIds(done, ids, m0);
    GenerateFresh(done, ids, m0, c0);
  }

  /** The request log an update phase leaves fixes how many iterations
      ran, and so the tag counter it leaves, failed or not. */
  lemma UpdatedDeterminesUid(inputs: seq<UpdateInput>, m: map<int, int>, uid0: int, before: seq<seq<WriteOp>>,
                             uidA: int, uidB: int, after: seq<seq<WriteOp>>, failing: set<nat>, err: bool,
                             doneA: nat, doneB: nat)
    requires Updated(inputs, m, uid0, before, uidA, after, failing, err, doneA)
    requires Updated(inputs, m, uid0, before, uidB, after, failing, err, doneB)
    ensures doneA == doneB && uidA == uidB
  {
    if err && |after[|after| - 1]| == BatchSize {
      assert UpdateOps(doneA, inputs, m, uid0) == UpdateOps(doneB, inputs, m, uid0);
      if doneA < doneB {
        LaterTrackedAddsOp(doneA, doneB, inputs, m, uid0);
      } else if doneB < doneA {
        LaterTrackedAddsOp(doneB, doneA, inputs, m, uid0);
      }
    }
  }

  /** Running up to and including a later tracked iteration plans more
      updates. */
  lemma LaterTrackedAddsOp(j: nat, n: nat, inputs: seq<UpdateInput>, m: map<int, int>, uid0: int)
    requires j < n <= |inputs| && inputs[n - 1].id in m
    ensures |UpdateOps(j, inputs, m, uid0)| < |UpdateOps(n, inputs, m, uid0)|
  {
    UpdatePrefix(j, n - 1, inputs, m, uid0);
  }
}
