/** The marker registry (`Markers`, a map from document id to its current
    marker), the two process-wide counters (`g_marker` for markers, `g_uid`
    for tag names), the tag-name format `"u<uid>"`, and the reference
    definitions of what each mutation phase does to the registry and which
    write models it plans, iteration by iteration. */
module Registry {
  import opened Bson
  import opened Store

  /** `type Markers map[int]int64`, a map the harness mutates in place. */
  class Markers {
    var entries: map<int, int>

    constructor ()
      ensures entries == map[]
    {
      entries := map[];
    }
  }

  /** The package-level counters `g_marker` and `g_uid`. */
  class Counters {
    var marker: int
    var uid: int

    constructor ()
      ensures marker == 0 && uid == 0
    {
      marker := 0;
      uid := 0;
    }
  }

  /** The registry invariant: every marker was allocated from the counter
      (positive and at most its current value) and no two ids share one. */
  predicate Consistent(m: map<int, int>, counter: int) {
    0 <= counter &&
    (forall id :: id in m ==> 0 < m[id] <= counter) &&
    (forall a, b :: a in m && b in m && a != b ==> m[a] != m[b])
  }

  // ---------------------------------------------------------------------
  // Tag names: fmt.Sprintf("u%d", uid)

  function DigitChar(d: nat): char
    requires d < 10
  {
    ('0' as int + d) as char
  }

  function Digits(n: nat): (s: string)
    ensures |s| > 0 && '0' <= s[0] <= '9'
  {
    if n < 10 then [DigitChar(n)] else Digits(n / 10) + [DigitChar(n % 10)]
  }

  /** `%d` of an integer. */
  function Decimal(n: int): string {
    if n < 0 then "-" + Digits(-n) else Digits(n)
  }

  function Tag(uid: int): string {
    "u" + Decimal(uid)
  }

  lemma {:induction false} DigitsInjective(a: nat, b: nat)
    requires Digits(a) == Digits(b)
    ensures a == b
    decreases a
  {
    if a >= 10 && b >= 10 {
      var da, db := Digits(a), Digits(b);
      assert da[..|da| - 1] == Digits(a / 10) && db[..|db| - 1] == Digits(b / 10);
      DigitsInjective(a / 10, b / 10);
    }
  }

  /** Distinct uids give distinct tag names, and every tag name carries the
      prefix the event-marker search looks for. */
  lemma TagInjective(a: int, b: int)
    ensures Tag(a) == Tag(b) <==> a == b
    ensures HasPrefix(Tag(a), "u")
  {
    if Tag(a) == Tag(b) {
      var da, db := Decimal(a), Decimal(b);
      assert da == Tag(a)[1..] && db == Tag(b)[1..];
      if a < 0 && b < 0 {
        assert da[1..] == Digits(-a) && db[1..] == Digits(-b);
        DigitsInjective(-a, -b);
      } else if a >= 0 && b >= 0 {
        DigitsInjective(a, b);
      }
    }
  }

  // ---------------------------------------------------------------------
  // Generate phase. `ids[i]` is the id the phase's id generator gives for
  // iteration `i`; the generator is pure, so the phase is modelled by those
  // values, one per iteration.

  /** `{_id: id, u: marker}` upserted by replacement. */
  function ReplaceWithMarker(id: int, marker: int): WriteOp {
    ReplaceOne(IdFilter(id), [Element("_id", Int(id)), Element("u", Int64(marker))], true)
  }

  /** An id that the generate loop saw for the first time, with the marker
      it was given there. */
  datatype Allocation = Allocation(id: int, marker: int)

  /** Registry, marker counter, the allocations made so far and the write
      models planned so far, in order. */
  datatype GenState = GenState(markers: map<int, int>, counter: int, created: seq<Allocation>,
                               ops: seq<WriteOp>)

  /** One iteration of the generate loop for `id`: a tracked id is skipped;
      a new id gets the next marker, is recorded, and an upsert-replace is
      planned for it. */
  function GenerateStep(s: GenState, id: int): GenState {
    if id in s.markers then s
    else
      var marker := s.counter + 1;
      GenState(s.markers[id := marker], marker, s.created + [Allocation(id, marker)],
               s.ops + [ReplaceWithMarker(id, marker)])
  }

  /** The state after the first `n` iterations of the generate loop. */
  function GenerateUpTo(n: nat, ids: seq<int>, m: map<int, int>, counter: int): GenState
    requires n <= |ids|
  {
    if n == 0 then GenState(m, counter, [], [])
    else GenerateStep(GenerateUpTo(n - 1, ids, m, counter), ids[n - 1])
  }

  /** The write models the first `n` iterations of the generate loop plan. */
  function GenerateOps(n: nat, ids: seq<int>, m: map<int, int>, counter: int): seq<WriteOp>
    requires n <= |ids|
  {
    GenerateUpTo(n, ids, m, counter).ops
  }

  /** One upsert-replace per allocation, in allocation order. */
  lemma {:induction false} GenerateOpsAllocations(n: nat, ids: seq<int>, m: map<int, int>, counter: int)
    requires n <= |ids|
    ensures var ops, c := GenerateOps(n, ids, m, counter), GenerateUpTo(n, ids, m, counter).created;
      |ops| == |c| &&
      forall k :: 0 <= k < |c| ==> ops[k] == ReplaceWithMarker(c[k].id, c[k].marker)
  {
    if n > 0 {
      GenerateOpsAllocations(n - 1, ids, m, counter);
    }
  }

  /** After generating, every generated id is tracked and nothing else was
      added. */
  lemma {:induction false} GenerateTracks(n: nat, ids: seq<int>, m: map<int, int>, counter: int)
    requires n <= |ids|
    ensures var r := GenerateUpTo(n, ids, m, counter);
      (forall i :: 0 <= i < n ==> ids[i] in r.markers) &&
      (forall id :: id in r.markers ==> id in m || exists i :: 0 <= i < n && ids[i] == id)
  {
    if n > 0 {
      GenerateTracks(n - 1, ids, m, counter);
    }
  }

  /** Markers already present are never overwritten. */
  lemma {:induction false} GenerateKeepsExisting(n: nat, ids: seq<int>, m: map<int, int>, counter: int)
    requires n <= |ids|
    ensures var r := GenerateUpTo(n, ids, m, counter);
      forall id :: id in m ==> id in r.markers && r.markers[id] == m[id]
  {
    if n > 0 {
      GenerateKeepsExisting(n - 1, ids, m, counter);
    }
  }

  /** The marker counter grows by exactly the number of new ids, and so
      does the registry. */
  lemma {:induction false} GenerateCounts(n: nat, ids: seq<int>, m: map<int, int>, counter: int)
    requires n <= |ids|
    ensures var r := GenerateUpTo(n, ids, m, counter);
      r.counter == counter + |r.created| && |r.markers| == |m| + |r.created|
  {
    if n > 0 {
      GenerateCounts(n - 1, ids, m, counter);
    }
  }

  /** The k-th allocation gives a new id marker `counter + k + 1`, and that
      id is now tracked with it. */
  predicate AllocatedInOrder(s: GenState, m: map<int, int>, counter: int) {
    m.Keys <= s.markers.Keys && s.counter == counter + |s.created| &&
    forall k :: 0 <= k < |s.created| ==>
      var a := s.created[k];
      a.id !in m && a.id in s.markers && s.markers[a.id] == a.marker == counter + k + 1
  }

  /** Every new id has a marker above the old counter and at most the
      current one, and it is the id of the allocation of that marker. */
  predicate NewIdsAllocated(s: GenState, m: map<int, int>, counter: int) {
    s.counter == counter + |s.created| &&
    forall id :: id in s.markers && id !in m ==>
      counter < s.markers[id] <= s.counter &&
      s.created[s.markers[id] - counter - 1] == Allocation(id, s.markers[id])
  }

  lemma StepKeepsAllocatedInOrder(s: GenState, id: int, m: map<int, int>, counter: int)
    requires AllocatedInOrder(s, m, counter)
    ensures AllocatedInOrder(GenerateStep(s, id), m, counter)
  {
    var r := GenerateStep(s, id);
    if id !in s.markers {
      forall k | 0 <= k < |r.created|
        ensures var a := r.created[k];
          a.id !in m && a.id in r.markers && r.markers[a.id] == a.marker == counter + k + 1
      {
        if k < |s.created| {
          assert r.created[k] == s.created[k];
        }
      }
    }
  }

  lemma StepKeepsNewIdsAllocated(s: GenState, id: int, m: map<int, int>, counter: int)
    requires NewIdsAllocated(s, m, counter)
    ensures NewIdsAllocated(GenerateStep(s, id), m, counter)
  {
    var r := GenerateStep(s, id);
    if id !in s.markers {
      forall x | x in r.markers && x !in m
        ensures counter < r.markers[x] <= r.counter &&
                r.created[r.markers[x] - counter - 1] == Allocation(x, r.markers[x])
      {
        if x != id {
          assert r.created[s.markers[x] - counter - 1] == s.created[s.markers[x] - counter - 1];
        }
      }
    }
  }

  /** New markers rise strictly in allocation order: the k-th allocation
      gives a new id marker `counter + k + 1`, and that id is now tracked
      with it. */
  lemma {:induction false} GenerateAllocates(n: nat, ids: seq<int>, m: map<int, int>, counter: int)
    requires n <= |ids|
    ensures AllocatedInOrder(GenerateUpTo(n, ids, m, counter), m, counter)
  {
    if n > 0 {
      GenerateAllocates(n - 1, ids, m, counter);
      StepKeepsAllocatedInOrder(GenerateUpTo(n - 1, ids, m, counter), ids[n - 1], m, counter);
    }
  }

  /** Every new id has exactly one allocation: the one of its marker. */
  lemma {:induction false} GenerateNewIds(n: nat, ids: seq<int>, m: map<int, int>, counter: int)
    requires n <= |ids|
    ensures NewIdsAllocated(GenerateUpTo(n, ids, m, counter), m, counter)
  {
    if n > 0 {
      GenerateNewIds(n - 1, ids, m, counter);
      StepKeepsNewIdsAllocated(GenerateUpTo(n - 1, ids, m, counter), ids[n - 1], m, counter);
    }
  }

  /** Generating keeps the registry invariant: new markers are above every
      marker already present, hence distinct from all of them. */
  lemma GenerateConsistent(n: nat, ids: seq<int>, m: map<int, int>, counter: int)
    requires n <= |ids|
    requires Consistent(m, counter)
    ensures var r := GenerateUpTo(n, ids, m, counter);
      Consistent(r.markers, r.counter)
  {
    var r := GenerateUpTo(n, ids, m, counter);
    GenerateKeepsExisting(n, ids, m, counter);
    GenerateNewIds(n, ids, m, counter);
    forall a, b | a in r.markers && b in r.markers && a != b
      ensures r.markers[a] != r.markers[b]
    {
      if a !in m && b !in m {
        assert r.created[r.markers[a] - counter - 1] == Allocation(a, r.markers[a]);
      }
    }
  }

  /** Later iterations only append: the allocations and write models of the
      first `j` iterations are prefixes of those of the first `n`. */
  lemma {:induction false} GeneratePrefix(j: nat, n: nat, ids: seq<int>, m: map<int, int>, counter: int)
    requires j <= n <= |ids|
    ensures var a, b := GenerateUpTo(j, ids, m, counter), GenerateUpTo(n, ids, m, counter);
      |a.created| <= |b.created| && b.created[..|a.created|] == a.created &&
      |a.ops| <= |b.ops| && b.ops[..|a.ops|] == a.ops
  {
    if j < n {
      GeneratePrefix(j, n - 1, ids, m, counter);
    }
  }

  /** None of the first `n` ids is tracked and no two of them are equal. */
  predicate FreshIds(n: nat, ids: seq<int>, m: map<int, int>)
    requires n <= |ids|
  {
    (forall i :: 0 <= i < n ==> ids[i] !in m) &&
    (forall i, j :: 0 <= i < j < n ==> ids[i] != ids[j])
  }

  /** Each of the first `n` iterations allocated the next marker for its
      id and planned its upsert-replace. */
  predicate AllocatedEach(r: GenState, n: nat, ids: seq<int>, counter: int)
    requires n <= |ids|
  {
    r.counter == counter + n && |r.ops| == n &&
    forall i :: 0 <= i < n ==>
      ids[i] in r.markers && r.markers[ids[i]] == counter + i + 1 &&
      r.ops[i] == ReplaceWithMarker(ids[i], counter + i + 1)
  }

  /** Over fresh ids every iteration allocates: the `i`th id gets marker
      `counter + i + 1` and the `i`th planned write. */
  lemma {:induction false} GenerateFresh(n: nat, ids: seq<int>, m: map<int, int>, counter: int)
    requires n <= |ids| && FreshIds(n, ids, m)
    ensures AllocatedEach(GenerateUpTo(n, ids, m, counter), n, ids, counter)
  {
    if n > 0 {
      assert FreshIds(n - 1, ids, m);
      GenerateFresh(n - 1, ids, m, counter);
      GenerateTracks(n - 1, ids, m, counter);
      FreshStep(GenerateUpTo(n - 1, ids, m, counter), n, ids, m, counter);
    }
  }

  lemma FreshStep(r0: GenState, n: nat, ids: seq<int>, m: map<int, int>, counter: int)
    requires 0 < n <= |ids| && FreshIds(n, ids, m)
    requires AllocatedEach(r0, n - 1, ids, counter)
    requires forall id :: id in r0.markers ==> id in m || exists i :: 0 <= i < n - 1 && ids[i] == id
    ensures AllocatedEach(GenerateStep(r0, ids[n - 1]), n, ids, counter)
  {
    var id := ids[n - 1];
    assert forall i :: 0 <= i < n - 1 ==> ids[i] != id;
    assert id !in r0.markers;
    var r := GenerateStep(r0, id);
    forall i | 0 <= i < n
      ensures ids[i] in r.markers && r.markers[ids[i]] == counter + i + 1 &&
              r.ops[i] == ReplaceWithMarker(ids[i], counter + i + 1)
    {
      if i < n - 1 {
        assert ids[i] != id;
        assert r.ops[i] == r0.ops[i];
      }
    }
  }

  // ---------------------------------------------------------------------
  // Remove phase. `ids[i]` is the id given for iteration `i`.

  datatype RemState = RemState(markers: map<int, int>, ops: seq<WriteOp>)

  /** Registry and planned write models after the first `n` iterations of
      the remove loop: the id is dropped from the registry (a no-op when it
      is untracked) and a delete is planned either way. */
  function RemoveUpTo(n: nat, ids: seq<int>, m: map<int, int>): RemState
    requires n <= |ids|
  {
    if n == 0 then RemState(m, [])
    else
      var s := RemoveUpTo(n - 1, ids, m);
      RemState(s.markers - {ids[n - 1]}, s.ops + [DeleteOne(IdFilter(ids[n - 1]))])
  }

  /** After removing, exactly the removed ids are gone and every other
      entry is unchanged. */
  lemma {:induction false} RemoveDrops(n: nat, ids: seq<int>, m: map<int, int>)
    requires n <= |ids|
    ensures var r := RemoveUpTo(n, ids, m).markers;
      (forall id :: id in r <==> id in m && forall i :: 0 <= i < n ==> ids[i] != id) &&
      (forall id :: id in r ==> r[id] == m[id])
  {
    if n > 0 {
      RemoveDrops(n - 1, ids, m);
    }
  }

  /** One delete is planned per iteration, in order, whether or not its id
      was tracked. */
  lemma {:induction false} RemoveDeletes(n: nat, ids: seq<int>, m: map<int, int>)
    requires n <= |ids|
    ensures var ops := RemoveUpTo(n, ids, m).ops;
      |ops| == n && forall i :: 0 <= i < n ==> ops[i] == DeleteOne(IdFilter(ids[i]))
  {
    if n > 0 {
      RemoveDeletes(n - 1, ids, m);
      assert RemoveUpTo(n, ids, m).ops[..n - 1] == RemoveUpTo(n - 1, ids, m).ops;
    }
  }

  /** Removing keeps the registry invariant. */
  lemma RemoveConsistent(n: nat, ids: seq<int>, m: map<int, int>, counter: int)
    requires n <= |ids|
    requires Consistent(m, counter)
    ensures Consistent(RemoveUpTo(n, ids, m).markers, counter)
  {
    RemoveDrops(n, ids, m);
  }

  lemma {:induction false} RemovePrefix(j: nat, n: nat, ids: seq<int>, m: map<int, int>)
    requires j <= n <= |ids|
    ensures var a, b := RemoveUpTo(j, ids, m).ops, RemoveUpTo(n, ids, m).ops;
      |a| <= |b| && b[..|a|] == a
  {
    if j < n {
      RemovePrefix(j, n - 1, ids, m);
    }
  }

  // ---------------------------------------------------------------------
  // Update phase

  /** The three update documents of the update loop. `SetAll` sets `k`,
      `d` and the tag; `SetKey` sets `k` and the tag and unsets `d`;
      `SetTagOnly` sets the tag and unsets `k` and `d`. */
  datatype UpdateShape = SetAll | SetKey | SetTagOnly

  /** What the update loop's iteration reads besides the registry: the id
      and `k` value of its id generator, the shape of its update document
      and the `time.Now().String()` it would store in `d`. */
  datatype UpdateInput = UpdateInput(id: int, k: int, shape: UpdateShape, date: string)

  /** The `$set` document (the fields the store reports as updated) of an
      update that tags its document with `tag: marker`. */
  function SetFields(u: UpdateInput, tag: string, marker: int): seq<Element> {
    match u.shape
    case SetAll => [Element("k", Int(u.k)), Element("d", Str(u.date)), Element(tag, Int64(marker))]
    case SetKey => [Element("k", Int(u.k)), Element(tag, Int64(marker))]
    case SetTagOnly => [Element(tag, Int64(marker))]
  }

  function UnsetFields(u: UpdateInput): seq<Element> {
    match u.shape
    case SetAll => []
    case SetKey => [Element("d", Int(1))]
    case SetTagOnly => [Element("k", Int(1)), Element("d", Int(1))]
  }

  /** The update of iteration with tag number `uid`, for an id tracked with
      `marker`: `{$set: …}` followed by `{$unset: …}` when anything is
      unset, without upsert. */
  function UpdateWithMarker(u: UpdateInput, uid: int, marker: int): WriteOp {
    var setDoc := [Element("$set", Doc(SetFields(u, Tag(uid), marker)))];
    UpdateOne(IdFilter(u.id),
              if UnsetFields(u) == [] then setDoc else setDoc + [Element("$unset", Doc(UnsetFields(u)))],
              false)
  }

  /** What each update document does to a tracked document: every shape
      sets the tag to the marker; the first also sets `k` and `d`, the
      second sets `k` and unsets `d`, the third unsets both; no field is
      both set and unset. */
  lemma UpdateShapes(u: UpdateInput, uid: int, marker: int)
    ensures var sets, unsets := SetFields(u, Tag(uid), marker), UnsetFields(u);
      Lookup(sets, Tag(uid)) == Some(Int64(marker)) &&
      Lookup(sets, "k") == (if u.shape == SetTagOnly then None else Some(Int(u.k))) &&
      Lookup(sets, "d") == (if u.shape == SetAll then Some(Str(u.date)) else None) &&
      (Lookup(unsets, "k").Some? <==> u.shape == SetTagOnly) &&
      (Lookup(unsets, "d").Some? <==> u.shape != SetAll) &&
      forall e :: e in unsets ==> Lookup(sets, e.key).None?
  {
    var tag := Tag(uid);
    assert tag[0] == 'u';
    assert tag != "k" && tag != "d" by {
      assert "k"[0] == 'k' && "d"[0] == 'd';
    }
    var sets, unsets := SetFields(u, tag, marker), UnsetFields(u);
    match u.shape
    case SetAll =>
      assert sets[1..] == [Element("d", Str(u.date)), Element(tag, Int64(marker))];
      assert sets[1..][1..] == [Element(tag, Int64(marker))];
      assert Lookup(sets, tag) == Lookup(sets[1..], tag) == Lookup(sets[1..][1..], tag);
    case SetKey =>
      assert sets[1..] == [Element(tag, Int64(marker))] && sets[1..][1..] == [];
      assert Lookup(sets, "d") == Lookup(sets[1..], "d") == Lookup(sets[1..][1..], "d");
    case SetTagOnly =>
      assert unsets[1..] == [Element("d", Int(1))];
  }

  /** The iterations, among the first `n`, whose id is tracked: the ones
      that emit an update. */
  function UpdatePlan(n: nat, inputs: seq<UpdateInput>, m: map<int, int>): seq<nat>
    requires n <= |inputs|
  {
    if n == 0 then []
    else UpdatePlan(n - 1, inputs, m) + (if inputs[n - 1].id in m then [n - 1] else [])
  }

  /** The update iteration `i` builds when its id is tracked: it takes tag
      number `uid + i + 1`, `uid` being the tag counter before the loop. */
  function UpdateAt(inputs: seq<UpdateInput>, m: map<int, int>, uid: int, i: nat): WriteOp
    requires i < |inputs| && inputs[i].id in m
  {
    UpdateWithMarker(inputs[i], uid + i + 1, m[inputs[i].id])
  }

  /** The write models the first `n` iterations of the update loop plan. */
  function UpdateOps(n: nat, inputs: seq<UpdateInput>, m: map<int, int>, uid: int): seq<WriteOp>
    requires n <= |inputs|
  {
    if n == 0 then []
    else
      UpdateOps(n - 1, inputs, m, uid) + (if inputs[n - 1].id in m then [UpdateAt(inputs, m, uid, n - 1)] else [])
  }

  /** `p` lists, in increasing order, exactly the iterations among the
      first `n` whose id is tracked in `m`. */
  predicate TrackedIterations(p: seq<nat>, n: nat, inputs: seq<UpdateInput>, m: map<int, int>)
    requires n <= |inputs|
  {
    (forall k :: 0 <= k < |p| ==> p[k] < n && inputs[p[k]].id in m) &&
    (forall j, k :: 0 <= j < k < |p| ==> p[j] < p[k]) &&
    (forall i :: 0 <= i < n && inputs[i].id in m ==> i in p)
  }

  /** The plan is exactly the tracked iterations, in order. */
  lemma {:induction false} UpdatePlanFacts(n: nat, inputs: seq<UpdateInput>, m: map<int, int>)
    requires n <= |inputs|
    ensures TrackedIterations(UpdatePlan(n, inputs, m), n, inputs, m)
  {
    if n > 0 {
      var p0, p := UpdatePlan(n - 1, inputs, m), UpdatePlan(n, inputs, m);
      UpdatePlanFacts(n - 1, inputs, m);
      assert TrackedIterations(p0, n - 1, inputs, m);
      if inputs[n - 1].id in m {
        PlanExtend(p0, n - 1, inputs, m);
      } else {
        assert p == p0;
      }
    }
  }

  lemma PlanExtend(p: seq<nat>, n: nat, inputs: seq<UpdateInput>, m: map<int, int>)
    requires n < |inputs| && inputs[n].id in m
    requires TrackedIterations(p, n, inputs, m)
    ensures TrackedIterations(p + [n], n + 1, inputs, m)
  {
    var q := p + [n];
    forall i | 0 <= i < n + 1 && inputs[i].id in m
      ensures i in q
    {
      if i < n {
        assert i in p;
      } else {
        assert q[|p|] == n;
      }
    }
  }

  /** `ops` holds, for each iteration `p[k]`, its update for its id's
      current marker and its tag number. */
  ghost predicate FollowsPlan(ops: seq<WriteOp>, p: seq<nat>, inputs: seq<UpdateInput>, m: map<int, int>, uid: int) {
    |ops| == |p| &&
    forall k :: 0 <= k < |p| ==>
      p[k] < |inputs| && inputs[p[k]].id in m && ops[k] == UpdateAt(inputs, m, uid, p[k])
  }

  /** The k-th planned update is the one the k-th planned iteration builds,
      for its id's current marker and the iteration's tag number. */
  lemma {:induction false} UpdateOpsFollowPlan(n: nat, inputs: seq<UpdateInput>, m: map<int, int>, uid: int)
    requires n <= |inputs|
    ensures FollowsPlan(UpdateOps(n, inputs, m, uid), UpdatePlan(n, inputs, m), inputs, m, uid)
  {
    if n > 0 {
      UpdateOpsFollowPlan(n - 1, inputs, m, uid);
      if inputs[n - 1].id in m {
        FollowStep(UpdateOps(n - 1, inputs, m, uid), UpdatePlan(n - 1, inputs, m), n - 1, inputs, m, uid);
      }
    }
  }

  lemma FollowStep(ops0: seq<WriteOp>, p0: seq<nat>, i: nat, inputs: seq<UpdateInput>, m: map<int, int>, uid: int)
    requires i < |inputs| && inputs[i].id in m
    requires FollowsPlan(ops0, p0, inputs, m, uid)
    ensures FollowsPlan(ops0 + [UpdateAt(inputs, m, uid, i)], p0 + [i], inputs, m, uid)
  {
    var ops, p := ops0 + [UpdateAt(inputs, m, uid, i)], p0 + [i];
    forall k | 0 <= k < |p|
      ensures p[k] < |inputs| && inputs[p[k]].id in m && ops[k] == UpdateAt(inputs, m, uid, p[k])
    {
      if k < |p0| {
        assert p[k] == p0[k] && ops[k] == ops0[k];
      }
    }
  }

  lemma {:induction false} UpdatePrefix(j: nat, n: nat, inputs: seq<UpdateInput>, m: map<int, int>, uid: int)
    requires j <= n <= |inputs|
    ensures var a, b := UpdateOps(j, inputs, m, uid), UpdateOps(n, inputs, m, uid);
      |a| <= |b| && b[..|a|] == a
  {
    if j < n {
      UpdatePrefix(j, n - 1, inputs, m, uid);
    }
  }

  /** `ops` holds one update per iteration among the first `n`, each id
      being tracked: the `i`th with tag number `uid + i + 1`. */
  ghost predicate UpdatedEach(ops: seq<WriteOp>, n: nat, inputs: seq<UpdateInput>, m: map<int, int>, uid: int)
    requires n <= |inputs|
  {
    |ops| == n &&
    forall i :: 0 <= i < n ==> inputs[i].id in m && ops[i] == UpdateAt(inputs, m, uid, i)
  }

  /** When every id among the first `n` iterations is tracked, every
      iteration plans its update, with tag number `uid + i + 1`. */
  lemma {:induction false} UpdateAllTracked(n: nat, inputs: seq<UpdateInput>, m: map<int, int>, uid: int)
    requires n <= |inputs|
    requires forall i :: 0 <= i < n ==> inputs[i].id in m
    ensures UpdatedEach(UpdateOps(n, inputs, m, uid), n, inputs, m, uid)
  {
    if n > 0 {
      UpdateAllTracked(n - 1, inputs, m, uid);
      TrackedStep(UpdateOps(n - 1, inputs, m, uid), n, inputs, m, uid);
    }
  }

  lemma TrackedStep(ops0: seq<WriteOp>, n: nat, inputs: seq<UpdateInput>, m: map<int, int>, uid: int)
    requires 0 < n <= |inputs| && inputs[n - 1].id in m
    requires UpdatedEach(ops0, n - 1, inputs, m, uid)
    ensures UpdatedEach(ops0 + [UpdateAt(inputs, m, uid, n - 1)], n, inputs, m, uid)
  {
    var ops := ops0 + [UpdateAt(inputs, m, uid, n - 1)];
    forall i | 0 <= i < n
      ensures inputs[i].id in m && ops[i] == UpdateAt(inputs, m, uid, i)
    {
      if i < n - 1 {
        assert ops[i] == ops0[i];
      }
    }
  }

  /** The iterations `p` take pairwise distinct tag names, `uid` being the
      tag counter before the loop. */
  ghost predicate DistinctTags(p: seq<nat>, uid: int) {
    forall j, k :: 0 <= j < k < |p| ==> Tag(uid + p[j] + 1) != Tag(uid + p[k] + 1)
  }

  /** No two planned updates share a tag name: tag numbers rise strictly
      along the plan (and, the plan's iterations being below `n`, lie
      between the counter before the loop and after it). */
  lemma UpdateTagsDistinct(n: nat, inputs: seq<UpdateInput>, m: map<int, int>, uid: int)
    requires n <= |inputs|
    ensures DistinctTags(UpdatePlan(n, inputs, m), uid)
  {
    UpdatePlanFacts(n, inputs, m);
    RisingTags(UpdatePlan(n, inputs, m), uid);
  }

  lemma RisingTags(p: seq<nat>, uid: int)
    requires forall j, k :: 0 <= j < k < |p| ==> p[j] < p[k]
    ensures DistinctTags(p, uid)
  {
    forall j, k | 0 <= j < k < |p|
      ensures Tag(uid + p[j] + 1) != Tag(uid + p[k] + 1)
    {
      TagInjective(uid + p[j] + 1, uid + p[k] + 1);
    }
  }

  /** The tag numbers of the iterations `p`, all among the first `n`, lie
      above the tag counter `uid` before the loop and at most `n` above
      it, the counter after `n` iterations. */
  ghost predicate TagsWithin(p: seq<nat>, uid: int, n: nat) {
    forall k :: 0 <= k < |p| ==> uid < uid + p[k] + 1 <= uid + n
  }

  /** The first `n` iterations of the update loop take their tag numbers
      from `(uid, uid + n]`. */
  lemma UpdateTagRange(n: nat, inputs: seq<UpdateInput>, m: map<int, int>, uid: int)
    requires n <= |inputs|
    ensures TagsWithin(UpdatePlan(n, inputs, m), uid, n)
  {
    UpdatePlanFacts(n, inputs, m);
  }

  /** No tag name of the iterations `p1` (tag counter `u1`) is a tag name
      of the iterations `p2` (tag counter `u2`). */
  ghost predicate TagsApart(p1: seq<nat>, u1: int, p2: seq<nat>, u2: int) {
    forall j, k :: 0 <= j < |p1| && 0 <= k < |p2| ==> Tag(u1 + p1[j] + 1) != Tag(u2 + p2[k] + 1)
  }

  /** Two update loops, the second starting from a tag counter at or
      above the one the first ended with (`u1 + n1`), plan no tag name in
      common. */
  lemma PlansTagsApart(n1: nat, inputs1: seq<UpdateInput>, m1: map<int, int>, u1: int,
                       n2: nat, inputs2: seq<UpdateInput>, m2: map<int, int>, u2: int)
    requires n1 <= |inputs1| && n2 <= |inputs2| && u1 + n1 <= u2
    ensures TagsApart(UpdatePlan(n1, inputs1, m1), u1, UpdatePlan(n2, inputs2, m2), u2)
  {
    UpdateTagRange(n1, inputs1, m1, u1);
    UpdateTagRange(n2, inputs2, m2, u2);
    WithinApart(UpdatePlan(n1, inputs1, m1), u1, n1, UpdatePlan(n2, inputs2, m2), u2, n2);
  }

  lemma WithinApart(p1: seq<nat>, u1: int, n1: nat, p2: seq<nat>, u2: int, n2: nat)
    requires TagsWithin(p1, u1, n1) && TagsWithin(p2, u2, n2) && u1 + n1 <= u2
    ensures TagsApart(p1, u1, p2, u2)
  {
    forall j, k | 0 <= j < |p1| && 0 <= k < |p2|
      ensures Tag(u1 + p1[j] + 1) != Tag(u2 + p2[k] + 1)
    {
      TagInjective(u1 + p1[j] + 1, u2 + p2[k] + 1);
    }
  }
}
