/** `makeDataModification` of `main.go`: with a new registry, generate the
    documents `0 … 1999`, then update 100 times with the first update
    document only, returning at the first error. */
module MainHarness {
  import opened Bson
  import opened Bulk
  import opened Store
  import opened Registry
  import opened Workload
  import Phases

  const GenerateCount: nat := 2000
  const UpdateCount: nat := 100

  /** The update inputs of `main.go`, one clock reading per iteration. */
  function MainUpdates(dates: seq<string>): seq<UpdateInput>
  {
    UpdateInputs(FirstShapeOnly(|dates|), dates)
  }

  /** The requests the run plans, in order: the generate phase's batches,
      then the update phase's, for marker counter `c0` and tag counter
      `uid0` at the start. */
  ghost function Plan(c0: int, uid0: int, dates: seq<string>): seq<seq<WriteOp>>
  {
    var s := GenerateUpTo(GenerateCount, Identity(GenerateCount), map[], c0);
    Batches(s.ops) + Batches(UpdateOps(|dates|, MainUpdates(dates), s.markers, uid0))
  }

  /** The operations of the first `generated` generate iterations and the
      first `updated` update iterations, for marker counter `c0` and tag
      counter `uid0` at the start. */
  ghost function Written(c0: int, uid0: int, dates: seq<string>, generated: nat, updated: nat): seq<WriteOp>
    requires generated <= GenerateCount && updated <= |dates|
  {
    GenerateOps(generated, Identity(GenerateCount), map[], c0) +
    UpdateOps(updated, MainUpdates(dates), GenerateUpTo(GenerateCount, Identity(GenerateCount), map[], c0).markers, uid0)
  }

  /** The run writes the planned requests in order up to the first failed
      one and stops there. Whether or not it failed, `generated` generate
      iterations and then `updated` update iterations ran, the update phase
      only after all of the generate phase: the requests written hold
      exactly their operations, the marker counter has advanced by one per
      generate iteration and the tag counter by one per update iteration.
      When nothing failed, every iteration of both phases ran. */
  method MakeDataModification(coll: Collection, g: Counters, dates: seq<string>)
    returns (err: bool, ghost generated: nat, ghost updated: nat)
    requires |dates| == UpdateCount
    modifies coll, g
    ensures WroteBatches(old(coll.requests), coll.requests, Plan(old(g.marker), old(g.uid), dates),
                         coll.failing, err)
    ensures generated <= GenerateCount && updated <= UpdateCount && (updated > 0 ==> generated == GenerateCount)
    ensures g.marker == old(g.marker) + generated && g.uid == old(g.uid) + updated
    ensures Flatten(coll.requests[|old(coll.requests)|..]) == Written(old(g.marker), old(g.uid), dates, generated, updated)
    ensures !err ==> generated == GenerateCount && updated == UpdateCount
  {
    ghost var before, c0, uid0 := coll.requests, g.marker, g.uid;
    var markers := new Markers();
    var ids := Identity(GenerateCount);
    ghost var s := GenerateUpTo(GenerateCount, ids, map[], c0);
    var inputs := MainUpdates(dates);
    ghost var later := Batches(UpdateOps(|inputs|, inputs, s.markers, uid0));
    err, generated := Phases.DataGenerate(coll, g, ids, markers);
    IdentityFresh(GenerateCount);
    Phases.GeneratedFresh(ids, map[], c0, before, markers.entries, g.marker, coll.requests, coll.failing,
                          err, generated);
    updated := 0;
    if err {
      assert Written(c0, uid0, dates, generated, updated) == GenerateOps(generated, ids, map[], c0);
      WroteBeforeFailure(before, coll.requests, Batches(s.ops), later, coll.failing);
      return;
    }
    GenerateFresh(GenerateCount, ids, map[], c0);
    ghost var mid := coll.requests;
    err, updated := Phases.DataUpdate(coll, g, inputs, markers);
    WrittenInSequence(before, mid, coll.requests);
    WroteInSequence(before, mid, coll.requests, Batches(s.ops), later, coll.failing, err);
  }

  /** Two full batches of upsert-replaces: document `k` gets marker
      `c0 + k + 1`. */
  lemma GeneratePlanShape(c0: int)
    ensures var ops := GenerateOps(GenerateCount, Identity(GenerateCount), map[], c0);
      var bs := Batches(ops);
      |bs| == 2 && |bs[0]| == BatchSize && |bs[1]| == BatchSize &&
      forall k :: 0 <= k < BatchSize ==>
        bs[0][k] == ReplaceWithMarker(k, c0 + k + 1) &&
        bs[1][k] == ReplaceWithMarker(BatchSize + k, c0 + BatchSize + k + 1)
  {
    var ids := Identity(GenerateCount);
    IdentityFresh(GenerateCount);
    GenerateFresh(GenerateCount, ids, map[], c0);
    var ops := GenerateOps(GenerateCount, ids, map[], c0);
    assert Batches(ops[BatchSize..]) == [ops[BatchSize..]];
    assert Batches(ops) == [ops[..BatchSize], ops[BatchSize..]];
    forall k | 0 <= k < BatchSize
      ensures ops[BatchSize..][k] == ReplaceWithMarker(BatchSize + k, c0 + BatchSize + k + 1)
    {
      assert ops[BatchSize..][k] == ops[BatchSize + k];
    }
  }

  /** `op` is the update of iteration `i`: the id and `k` of the loop's
      generator, the first update document, its clock reading, tag number
      `uid0 + i + 1` and the marker its document was generated with. */
  ghost predicate UpdatesIteration(op: WriteOp, i: nat, c0: int, uid0: int, dates: seq<string>)
    requires i < |dates|
  {
    op == UpdateWithMarker(UpdateInput((i % 21) * 10, i * 13, SetAll, dates[i]),
                           uid0 + i + 1, c0 + (i % 21) * 10 + 1)
  }

  /** Every update iteration finds its id tracked (the ids visited are at
      most 200): one request of 100 updates, the `i`th with tag number
      `uid0 + i + 1` and its document's marker. */
  lemma UpdatePlanShape(c0: int, uid0: int, dates: seq<string>)
    requires |dates| == UpdateCount
    ensures var s := GenerateUpTo(GenerateCount, Identity(GenerateCount), map[], c0);
      var ops := UpdateOps(|dates|, MainUpdates(dates), s.markers, uid0);
      Batches(ops) == [ops] && |ops| == UpdateCount &&
      forall i :: 0 <= i < UpdateCount ==> UpdatesIteration(ops[i], i, c0, uid0, dates)
  {
    var s := GenerateUpTo(GenerateCount, Identity(GenerateCount), map[], c0);
    var ops := UpdateOps(|dates|, MainUpdates(dates), s.markers, uid0);
    PlannedUpdate(c0, uid0, dates, 0);
    assert Batches(ops) == [ops];
    forall i | 0 <= i < UpdateCount
      ensures UpdatesIteration(ops[i], i, c0, uid0, dates)
    {
      PlannedUpdate(c0, uid0, dates, i);
    }
  }

  /** The update of iteration `i`. */
  lemma PlannedUpdate(c0: int, uid0: int, dates: seq<string>, i: nat)
    requires |dates| == UpdateCount && i < UpdateCount
    ensures var s := GenerateUpTo(GenerateCount, Identity(GenerateCount), map[], c0);
      var ops := UpdateOps(|dates|, MainUpdates(dates), s.markers, uid0);
      |ops| == UpdateCount && UpdatesIteration(ops[i], i, c0, uid0, dates)
  {
    var s := GenerateUpTo(GenerateCount, Identity(GenerateCount), map[], c0);
    var inputs := MainUpdates(dates);
    UpdatesTracked(c0, dates);
    var ops := UpdateOps(UpdateCount, inputs, s.markers, uid0);
    UpdateAllTracked(UpdateCount, inputs, s.markers, uid0);
    var u := inputs[i];
    assert u == UpdateInput((i % 21) * 10, i * 13, SetAll, dates[i]);
    assert s.markers[u.id] == c0 + (i % 21) * 10 + 1;
    assert ops[i] == UpdateAt(inputs, s.markers, uid0, i);
  }

  /** Every update iteration finds its id, at most 200, tracked with the
      marker it was generated with. */
  lemma UpdatesTracked(c0: int, dates: seq<string>)
    requires |dates| == UpdateCount
    ensures var m := GenerateUpTo(GenerateCount, Identity(GenerateCount), map[], c0).markers;
      var inputs := MainUpdates(dates);
      forall j :: 0 <= j < UpdateCount ==>
        inputs[j].id in m && m[inputs[j].id] == c0 + (j % 21) * 10 + 1
  {
    IdentityRegistry(GenerateCount, c0);
  }

  /** The whole run plans three requests: 1000 and 1000 upsert-replaces,
      then 100 updates. */
  lemma PlanShape(c0: int, uid0: int, dates: seq<string>)
    requires |dates| == UpdateCount
    ensures var bs := Plan(c0, uid0, dates);
      |bs| == 3 && |bs[0]| == BatchSize && |bs[1]| == BatchSize && |bs[2]| == UpdateCount
  {
    GeneratePlanShape(c0);
    UpdatePlanShape(c0, uid0, dates);
  }
}
