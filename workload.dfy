/** The id generators both variants of `makeDataModification` hand to the
    mutation phases, written out as the values they give per iteration,
    and the update inputs built from them. */
module Workload {
  import opened Registry

  /** `func(i int) (int, int) { return i, i }` over `n` iterations: the
      ids `0 … n-1`. */
  function Identity(n: nat): (ids: seq<int>)
    ensures |ids| == n && forall i :: 0 <= i < n ==> ids[i] == i
  {
    if n == 0 then [] else Identity(n - 1) + [n - 1]
  }

  /** `func(i int) int { return i * 7 }` over `n` iterations. */
  function Sevens(n: nat): (ids: seq<int>)
    ensures |ids| == n && forall i :: 0 <= i < n ==> ids[i] == i * 7
  {
    if n == 0 then [] else Sevens(n - 1) + [(n - 1) * 7]
  }

  /** The update loop's generator `func(i int) (int, int) { return (i %
      21) * 10, i * 13 }`, each iteration with its update shape and its
      clock reading. */
  function UpdateInputs(shapes: seq<UpdateShape>, dates: seq<string>): (inputs: seq<UpdateInput>)
    requires |shapes| == |dates|
    ensures |inputs| == |dates|
    ensures forall i :: 0 <= i < |dates| ==>
      inputs[i] == UpdateInput((i % 21) * 10, i * 13, shapes[i], dates[i])
  {
    if dates == [] then []
    else
      var n := |dates| - 1;
      UpdateInputs(shapes[..n], dates[..n]) + [UpdateInput((n % 21) * 10, n * 13, shapes[n], dates[n])]
  }

  /** `switch rand.Int() % 3`: the first case, the second, or the default. */
  function ShapeOf(roll: nat): UpdateShape {
    if roll % 3 == 0 then SetAll else if roll % 3 == 1 then SetKey else SetTagOnly
  }

  /** The shapes picked by the rolls `rolls`, one per iteration. */
  function Shapes(rolls: seq<nat>): (shapes: seq<UpdateShape>)
    ensures |shapes| == |rolls| && forall i :: 0 <= i < |rolls| ==> shapes[i] == ShapeOf(rolls[i])
  {
    if rolls == [] then [] else Shapes(rolls[..|rolls| - 1]) + [ShapeOf(rolls[|rolls| - 1])]
  }

  /** The single update document of `main.go`, for `n` iterations. */
  function FirstShapeOnly(n: nat): (shapes: seq<UpdateShape>)
    ensures |shapes| == n && forall i :: 0 <= i < n ==> shapes[i] == SetAll
  {
    if n == 0 then [] else FirstShapeOnly(n - 1) + [SetAll]
  }

  /** The generate phase's ids start untracked in a new registry and are
      pairwise distinct, so each gets its own marker. */
  lemma IdentityFresh(n: nat)
    ensures FreshIds(n, Identity(n), map[])
  {
  }

  /** Generating `0 … n-1` into a new registry tracks exactly those ids,
      document `id` with marker `c0 + id + 1`. */
  lemma IdentityRegistry(n: nat, c0: int)
    ensures var s := GenerateUpTo(n, Identity(n), map[], c0);
      (forall id :: id in s.markers <==> 0 <= id < n) &&
      (forall id :: id in s.markers ==> s.markers[id] == c0 + id + 1)
  {
    var ids := Identity(n);
    var s := GenerateUpTo(n, ids, map[], c0);
    IdentityFresh(n);
    GenerateFresh(n, ids, map[], c0);
    GenerateTracks(n, ids, map[], c0);
    forall id | 0 <= id < n
      ensures id in s.markers && s.markers[id] == c0 + id + 1
    {
      assert ids[id] == id;
    }
  }
}
