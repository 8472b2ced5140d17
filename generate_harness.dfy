/** `makeDataModification` of `generate.go`: shard the collection, then
    with a new registry generate the documents `0 … 1999`, remove the ids
    `0, 7, …, 693`, and update 100 times with a randomly chosen update
    document, returning at the first error. */
module GenerateHarness {
  import opened Bson
  import opened Bulk
  import opened Store
  import opened Registry
  import opened Workload
  import Phases

  const GenerateCount: nat := 2000
  const RemoveCount: nat := 100
  const UpdateCount: nat := 100

  /** What the `shardCollection` admin command reports. */
  datatype CommandResult = Succeeded | CommandError(code: int) | OtherError

  /** `shardCollection` fails unless the command succeeded or failed with
      code 23, the collection being sharded already. */
  function ShardCollectionFails(r: CommandResult): bool {
    match r
    case Succeeded => false
    case CommandError(code) => code != 23
    case OtherError => true
  }

  /** The update inputs of `generate.go`: `rolls[i]` is the `rand.Int()`
      of iteration `i`, `dates[i]` its clock reading. */
  function GenUpdates(rolls: seq<nat>, dates: seq<string>): seq<UpdateInput>
    requires |rolls| == |dates|
  {
    UpdateInputs(Shapes(rolls), dates)
  }

  /** Registry, counter and write models after the generate phase. */
  ghost function AfterGenerate(c0: int): GenState {
    GenerateUpTo(GenerateCount, Identity(GenerateCount), map[], c0)
  }

  /** Registry and write models after the remove phase. */
  ghost function AfterRemove(c0: int): RemState {
    RemoveUpTo(RemoveCount, Sevens(RemoveCount), AfterGenerate(c0).markers)
  }

  /** The requests the run plans, in order: the generate phase's batches,
      the remove phase's, then the update phase's. */
  ghost function Plan(c0: int, uid0: int, rolls: seq<nat>, dates: seq<string>): seq<seq<WriteOp>>
    requires |rolls| == |dates|
  {
    Batches(AfterGenerate(c0).ops) + Batches(AfterRemove(c0).ops) +
    Batches(UpdateOps(|dates|, GenUpdates(rolls, dates), AfterRemove(c0).markers, uid0))
  }

  /** The operations of the first `generated` generate iterations, the
      first `removed` remove iterations and the first `updated` update
      iterations, for marker counter `c0` and tag counter `uid0` at the
      start. */
  ghost function Written(c0: int, uid0: int, rolls: seq<nat>, dates: seq<string>,
                         generated: nat, removed: nat, updated: nat): seq<WriteOp>
    requires |rolls| == |dates|
    requires generated <= GenerateCount && removed <= RemoveCount && updated <= |dates|
  {
    GenerateOps(generated, Identity(GenerateCount), map[], c0) +
    RemoveUpTo(removed, Sevens(RemoveCount), AfterGenerate(c0).markers).ops +
    UpdateOps(updated, GenUpdates(rolls, dates), AfterRemove(c0).markers, uid0)
  }

  /** A failed `shardCollection` returns before anything is written or
      counted; otherwise the run writes the planned requests in order up
      to the first failed one. Whether or not it failed, `generated`
      generate iterations, then `removed` remove iterations and then
      `updated` update iterations ran, each phase only after all of the one
      before: the requests written hold exactly their operations, the
      marker counter has advanced by one per generate iteration and the tag
      counter by one per update iteration. When nothing failed, every
      iteration of every phase ran. */
  method MakeDataModification(coll: Collection, g: Counters, shard: CommandResult,
                              rolls: seq<nat>, dates: seq<string>)
    returns (err: bool, ghost generated: nat, ghost removed: nat, ghost updated: nat)
    requires |rolls| == UpdateCount && |dates| == UpdateCount
    modifies coll, g
    ensures ShardCollectionFails(shard) ==>
      err && coll.requests == old(coll.requests) && g.marker == old(g.marker) && g.uid == old(g.uid)
    ensures !ShardCollectionFails(shard) ==>
      WroteBatches(old(coll.requests), coll.requests, Plan(old(g.marker), old(g.uid), rolls, dates),
                   coll.failing, err)
    ensures generated <= GenerateCount && removed <= RemoveCount && updated <= UpdateCount
    ensures (removed > 0 ==> generated == GenerateCount) && (updated > 0 ==> removed == RemoveCount)
    ensures g.marker == old(g.marker) + generated && g.uid == old(g.uid) + updated
    ensures |old(coll.requests)| <= |coll.requests| &&
            Flatten(coll.requests[|old(coll.requests)|..]) ==
            Written(old(g.marker), old(g.uid), rolls, dates, generated, removed, updated)
    ensures !err ==> generated == GenerateCount && removed == RemoveCount && updated == UpdateCount
  {
    generated, removed, updated := 0, 0, 0;
    if ShardCollectionFails(shard) {
      assert coll.requests[|coll.requests|..] == [];
      assert Written(g.marker, g.uid, rolls, dates, 0, 0, 0) == [];
      return true, generated, removed, updated;
    }
    ghost var before, c0, uid0 := coll.requests, g.marker, g.uid;
    var markers := new Markers();
    var inputs := GenUpdates(rolls, dates);
    ghost var b3 := Batches(UpdateOps(|inputs|, inputs, AfterRemove(c0).markers, uid0));
    err, generated, removed := GenerateThenRemove(coll, g, markers);
    if err {
      assert Written(c0, uid0, rolls, dates, generated, removed, updated) ==
             GenerateOps(generated, Identity(GenerateCount), map[], c0) +
             RemoveUpTo(removed, Sevens(RemoveCount), AfterGenerate(c0).markers).ops;
      WroteBeforeFailure(before, coll.requests, Batches(AfterGenerate(c0).ops) + Batches(AfterRemove(c0).ops),
                         b3, coll.failing);
      return;
    }
    ghost var mid := coll.requests;
    err, updated := Phases.DataUpdate(coll, g, inputs, markers);
    UpdatePhase(uid0, inputs, markers.entries, mid, g.uid, coll.requests, coll.failing, err, updated);
    WrittenInSequence(before, mid, coll.requests);
    WroteInSequence(before, mid, coll.requests, Batches(AfterGenerate(c0).ops) + Batches(AfterRemove(c0).ops),
                    b3, coll.failing, err);
  }

  /** The first two phases on a new registry: generate `0 … 1999`, then,
      when that succeeded, remove `0, 7, …, 693`. Whether or not a phase
      failed, the marker counter has advanced by the `generated` generate
      iterations that ran and the registry is what those and the
      `removed` remove iterations that ran made it; the requests written
      hold exactly the operations of those iterations. */
  method GenerateThenRemove(coll: Collection, g: Counters, markers: Markers)
    returns (err: bool, ghost generated: nat, ghost removed: nat)
    requires markers.entries == map[]
    modifies coll, g`marker, markers
    ensures WroteBatches(old(coll.requests), coll.requests,
                         Batches(AfterGenerate(old(g.marker)).ops) + Batches(AfterRemove(old(g.marker)).ops),
                         coll.failing, err)
    ensures generated <= GenerateCount && removed <= RemoveCount && (removed > 0 ==> generated == GenerateCount)
    ensures g.marker == old(g.marker) + generated
    ensures |old(coll.requests)| <= |coll.requests| &&
            Flatten(coll.requests[|old(coll.requests)|..]) ==
            GenerateOps(generated, Identity(GenerateCount), map[], old(g.marker)) +
            RemoveUpTo(removed, Sevens(RemoveCount), AfterGenerate(old(g.marker)).markers).ops
    ensures markers.entries ==
      RemoveUpTo(removed, Sevens(RemoveCount), GenerateUpTo(generated, Identity(GenerateCount), map[], old(g.marker)).markers).markers
    ensures !err ==> generated == GenerateCount && removed == RemoveCount &&
                     markers.entries == AfterRemove(old(g.marker)).markers
  {
    ghost var before, c0 := coll.requests, g.marker;
    err, generated := Phases.DataGenerate(coll, g, Identity(GenerateCount), markers);
    GeneratePhase(c0, before, markers.entries, g.marker, coll.requests, coll.failing, err, generated);
    removed := 0;
    if err {
      assert RemoveUpTo(removed, Sevens(RemoveCount), AfterGenerate(c0).markers).ops == [];
      WroteBeforeFailure(before, coll.requests, Batches(AfterGenerate(c0).ops), Batches(AfterRemove(c0).ops),
                         coll.failing);
      return;
    }
    ghost var mid := coll.requests;
    err, removed := Phases.DataRemove(coll, Sevens(RemoveCount), markers);
    RemovePhase(c0, mid, markers.entries, coll.requests, coll.failing, err, removed);
    WrittenInSequence(before, mid, coll.requests);
    WroteInSequence(before, mid, coll.requests, Batches(AfterGenerate(c0).ops), Batches(AfterRemove(c0).ops),
                    coll.failing, err);
  }

  /** What the generate phase leaves, starting from a new registry and
      marker counter `c0`: its planned batches written up to the first
      failure, and when none failed the registry and counter of
      `AfterGenerate`. */
  lemma GeneratePhase(c0: int, before: seq<seq<WriteOp>>, entries: map<int, int>, counter: int,
                      after: seq<seq<WriteOp>>, failing: set<nat>, err: bool, done: nat)
    requires Phases.Generated(Identity(GenerateCount), map[], c0, before, entries, counter, after, failing, err, done)
    ensures WroteBatches(before, after, Batches(AfterGenerate(c0).ops), failing, err)
    ensures done <= GenerateCount && counter == c0 + done &&
            entries == GenerateUpTo(done, Identity(GenerateCount), map[], c0).markers &&
            Flatten(after[|before|..]) == GenerateOps(done, Identity(GenerateCount), map[], c0)
    ensures !err ==> entries == AfterGenerate(c0).markers && counter == c0 + GenerateCount
  {
    IdentityFresh(GenerateCount);
    Phases.GeneratedFresh(Identity(GenerateCount), map[], c0, before, entries, counter, after, failing, err, done);
    GenerateFresh(GenerateCount, Identity(GenerateCount), map[], c0);
  }

  /** What the remove phase leaves after a successful generate phase. */
  lemma RemovePhase(c0: int, before: seq<seq<WriteOp>>, entries: map<int, int>,
                    after: seq<seq<WriteOp>>, failing: set<nat>, err: bool, done: nat)
    requires Phases.Removed(Sevens(RemoveCount), AfterGenerate(c0).markers, before, entries, after, failing, err, done)
    ensures WroteBatches(before, after, Batches(AfterRemove(c0).ops), failing, err)
    ensures done <= RemoveCount &&
            entries == RemoveUpTo(done, Sevens(RemoveCount), AfterGenerate(c0).markers).markers &&
            Flatten(after[|before|..]) == RemoveUpTo(done, Sevens(RemoveCount), AfterGenerate(c0).markers).ops
    ensures !err ==> entries == AfterRemove(c0).markers
  {
  }

  /** What the update phase leaves: one tag number per iteration when
      nothing failed. */
  lemma UpdatePhase(uid0: int, inputs: seq<UpdateInput>, m: map<int, int>, before: seq<seq<WriteOp>>,
                    uid: int, after: seq<seq<WriteOp>>, failing: set<nat>, err: bool, done: nat)
    requires Phases.Updated(inputs, m, uid0, before, uid, after, failing, err, done)
    ensures WroteBatches(before, after, Batches(UpdateOps(|inputs|, inputs, m, uid0)), failing, err)
    ensures done <= |inputs| && uid == uid0 + done && Flatten(after[|before|..]) == UpdateOps(done, inputs, m, uid0)
    ensures !err ==> uid == uid0 + |inputs|
  {
  }

  /** Seven divides an id the update loop visits exactly when it divides
      the iteration number: `(i % 21) * 10` is a multiple of 7 only for
      `i % 21` in `{0, 7, 14}`. */
  lemma {:induction false} UpdateIdSevens(i: nat)
    ensures ((i % 21) * 10) % 7 == 0 <==> i % 7 == 0
  {
    var q, r := i / 21, i % 21;
    assert i == 7 * (3 * q) + r;
    assert i % 7 == r % 7;
    ResidueSevens(r);
  }

  lemma ResidueSevens(r: nat)
    requires r < 21
    ensures (r * 10) % 7 == 0 <==> r % 7 == 0
  {
    assert r == 0 || r == 1 || r == 2 || r == 3 || r == 4 || r == 5 || r == 6 ||
           r == 7 || r == 8 || r == 9 || r == 10 || r == 11 || r == 12 || r == 13 ||
           r == 14 || r == 15 || r == 16 || r == 17 || r == 18 || r == 19 || r == 20;
  }

  /** After the remove phase the registry tracks the documents `0 … 1999`
      except the multiples of 7 below 700, each still with the marker it
      was generated with. */
  lemma RegistryAfterRemove(c0: int)
    ensures var m := AfterRemove(c0).markers;
      (forall id :: id in m <==> 0 <= id < GenerateCount && !(id % 7 == 0 && id < 7 * RemoveCount)) &&
      (forall id :: id in m ==> m[id] == c0 + id + 1)
  {
    var removed := Sevens(RemoveCount);
    var m0 := AfterGenerate(c0).markers;
    var m := AfterRemove(c0).markers;
    IdentityRegistry(GenerateCount, c0);
    RemoveDrops(RemoveCount, removed, m0);
    assert m == RemoveUpTo(RemoveCount, removed, m0).markers;
    assert m0 == GenerateUpTo(GenerateCount, Identity(GenerateCount), map[], c0).markers;
    assert forall id :: id in GenerateUpTo(GenerateCount, Identity(GenerateCount), map[], c0).markers <==> 0 <= id < GenerateCount;
    assert forall id :: id in m0 <==> 0 <= id < GenerateCount;
    assert forall id :: id in m ==> m[id] == m0[id];
    forall id
      ensures id in m <==> 0 <= id < GenerateCount && !(id % 7 == 0 && id < 7 * RemoveCount)
    {
      if id % 7 == 0 && 0 <= id < 7 * RemoveCount {
        assert removed[id / 7] == id;
        assert id !in m;
      } else {
        forall j | 0 <= j < RemoveCount
          ensures removed[j] != id
        {
          assert removed[j] == j * 7;
          assert (j * 7) % 7 == 0;
        }
        assert id in m <==> id in m0;
      }
    }
  }

  lemma MarkerAfterRemove(c0: int, id: int)
    requires id in AfterRemove(c0).markers
    ensures AfterRemove(c0).markers[id] == c0 + id + 1
  {
    RegistryAfterRemove(c0);
  }

  /** Exactly the update iterations whose number is not a multiple of 7
      find their id still tracked. */
  lemma UpdateTracked(c0: int, inputs: seq<UpdateInput>, i: nat)
    requires |inputs| == UpdateCount && i < UpdateCount
    requires inputs[i].id == (i % 21) * 10
    ensures inputs[i].id in AfterRemove(c0).markers <==> i % 7 != 0
  {
    RegistryAfterRemove(c0);
    UpdateIdSevens(i);
  }

  /** With every seventh iteration untracked (the first included), the
      first `n` iterations plan `n - ceil(n / 7)` updates. */
  lemma {:induction false} PlanCount(n: nat, inputs: seq<UpdateInput>, m: map<int, int>)
    requires n <= |inputs|
    requires forall i :: 0 <= i < n ==> (inputs[i].id in m <==> i % 7 != 0)
    ensures |UpdatePlan(n, inputs, m)| == n - (n + 6) / 7
  {
    if n > 0 {
      PlanCount(n - 1, inputs, m);
    }
  }

  /** The remove phase plans one request of 100 deletes, of `0, 7, …, 693`. */
  lemma RemovePlanShape(c0: int)
    ensures var bs := Batches(AfterRemove(c0).ops);
      |bs| == 1 && |bs[0]| == RemoveCount &&
      forall i :: 0 <= i < RemoveCount ==> bs[0][i] == DeleteOne(IdFilter(i * 7))
  {
    RemoveDeletes(RemoveCount, Sevens(RemoveCount), AfterGenerate(c0).markers);
  }

  /** The update phase emits an update for exactly the 85 iterations whose
      number is not a multiple of 7. */
  lemma UpdatePlanCount(c0: int, rolls: seq<nat>, dates: seq<string>)
    requires |rolls| == UpdateCount && |dates| == UpdateCount
    ensures var p := UpdatePlan(UpdateCount, GenUpdates(rolls, dates), AfterRemove(c0).markers);
      |p| == 85 && (forall k :: 0 <= k < |p| ==> p[k] < UpdateCount) &&
      forall i :: 0 <= i < UpdateCount ==> (i in p <==> i % 7 != 0)
  {
    var m := AfterRemove(c0).markers;
    var inputs := GenUpdates(rolls, dates);
    forall i | 0 <= i < UpdateCount
      ensures inputs[i].id in m <==> i % 7 != 0
    {
      UpdateTracked(c0, inputs, i);
    }
    PlanCount(UpdateCount, inputs, m);
    UpdatePlanFacts(UpdateCount, inputs, m);
  }

  /** `op` is the update of iteration `i`: the id and `k` of the loop's
      generator, the shape its roll picked, its clock reading, tag number
      `uid0 + i + 1` and the marker its document was generated with. */
  ghost predicate UpdatesIteration(op: WriteOp, i: nat, c0: int, uid0: int, rolls: seq<nat>, dates: seq<string>)
    requires i < |rolls| && i < |dates|
  {
    op == UpdateWithMarker(UpdateInput((i % 21) * 10, i * 13, ShapeOf(rolls[i]), dates[i]),
                           uid0 + i + 1, c0 + (i % 21) * 10 + 1)
  }

  /** The update phase plans one request of 85 updates, the `k`th for the
      `k`th tracked iteration `p[k]`, with the shape its roll picked, tag
      number `uid0 + p[k] + 1` and its document's marker. */
  lemma UpdatePlanShape(c0: int, uid0: int, rolls: seq<nat>, dates: seq<string>)
    requires |rolls| == UpdateCount && |dates| == UpdateCount
    ensures var m := AfterRemove(c0).markers;
      var p := UpdatePlan(UpdateCount, GenUpdates(rolls, dates), m);
      var ops := UpdateOps(UpdateCount, GenUpdates(rolls, dates), m, uid0);
      |p| == 85 && (forall k :: 0 <= k < |p| ==> p[k] < UpdateCount) &&
      Batches(ops) == [ops] && |ops| == 85 &&
      forall k :: 0 <= k < 85 ==> UpdatesIteration(ops[k], p[k], c0, uid0, rolls, dates)
  {
    var m := AfterRemove(c0).markers;
    var inputs := GenUpdates(rolls, dates);
    var p := UpdatePlan(UpdateCount, inputs, m);
    var ops := UpdateOps(UpdateCount, inputs, m, uid0);
    UpdatePlanCount(c0, rolls, dates);
    PlannedUpdate(c0, uid0, rolls, dates, 0);
    assert Batches(ops) == [ops];
    forall k | 0 <= k < 85
      ensures UpdatesIteration(ops[k], p[k], c0, uid0, rolls, dates)
    {
      PlannedUpdate(c0, uid0, rolls, dates, k);
    }
  }

  /** The `k`th planned update, for the tracked iteration `p[k]`. */
  lemma PlannedUpdate(c0: int, uid0: int, rolls: seq<nat>, dates: seq<string>, k: nat)
    requires |rolls| == UpdateCount && |dates| == UpdateCount
    requires k < |UpdatePlan(UpdateCount, GenUpdates(rolls, dates), AfterRemove(c0).markers)|
    ensures var m := AfterRemove(c0).markers;
      var p := UpdatePlan(UpdateCount, GenUpdates(rolls, dates), m);
      var ops := UpdateOps(UpdateCount, GenUpdates(rolls, dates), m, uid0);
      p[k] < UpdateCount && |ops| == |p| && UpdatesIteration(ops[k], p[k], c0, uid0, rolls, dates)
  {
    var m := AfterRemove(c0).markers;
    var inputs := GenUpdates(rolls, dates);
    var p := UpdatePlan(UpdateCount, inputs, m);
    var ops := UpdateOps(UpdateCount, inputs, m, uid0);
    UpdateOpsFollowPlan(UpdateCount, inputs, m, uid0);
    var i := p[k];
    var u := inputs[i];
    assert u == UpdateInput((i % 21) * 10, i * 13, ShapeOf(rolls[i]), dates[i]);
    MarkerAfterRemove(c0, u.id);
    assert m[u.id] == c0 + (i % 21) * 10 + 1;
    assert ops[k] == UpdateAt(inputs, m, uid0, i);
  }

  /** The whole run plans four requests: 1000 and 1000 upsert-replaces,
      100 deletes, then 85 updates. */
  lemma PlanShape(c0: int, uid0: int, rolls: seq<nat>, dates: seq<string>)
    requires |rolls| == UpdateCount && |dates| == UpdateCount
    ensures var bs := Plan(c0, uid0, rolls, dates);
      |bs| == 4 && |bs[0]| == BatchSize && |bs[1]| == BatchSize &&
      |bs[2]| == RemoveCount && |bs[3]| == 85
  {
    var ids := Identity(GenerateCount);
    IdentityFresh(GenerateCount);
    GenerateFresh(GenerateCount, ids, map[], c0);
    var ops := AfterGenerate(c0).ops;
    assert Batches(ops[BatchSize..]) == [ops[BatchSize..]];
    RemovePlanShape(c0);
    UpdatePlanShape(c0, uid0, rolls, dates);
  }
}
