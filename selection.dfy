/** Minimum-cost selection with a strict `<`: a later candidate replaces the kept one only when it
    is strictly cheaper, so the earliest candidate of minimum cost wins. Both the per-type shape
    enumerator and the cross-type chooser select this way; an absent entry is a candidate that was
    skipped or rejected. */
module Selection {
  import opened RamTypes

  /** One selection step: keep `best` unless `x` is present and strictly cheaper (or nothing is kept yet). */
  function Keep<T>(best: Option<(T, real)>, x: Option<(T, real)>): Option<(T, real)>
  {
    match x
    case None => best
    case Some(c) => if best.None? || c.1 < best.value.1 then x else best
  }

  /** The result of scanning `xs` from left to right with `Keep`. */
  function FirstMin<T>(xs: seq<Option<(T, real)>>): Option<(T, real)>
  {
    if xs == [] then None else Keep(FirstMin(xs[..|xs| - 1]), xs[|xs| - 1])
  }

  /** The scan finds nothing exactly when no entry is present. */
  lemma {:induction false} FirstMinNone<T>(xs: seq<Option<(T, real)>>)
    ensures FirstMin(xs).None? <==> forall k :: 0 <= k < |xs| ==> xs[k].None?
  {
    if xs != [] {
      var ys := xs[..|xs| - 1];
      FirstMinNone(ys);
      assert forall k :: 0 <= k < |ys| ==> ys[k] == xs[k];
    }
  }

  /** What the scan keeps is the earliest present entry of minimum cost: it is entry `k`, no present
      entry is cheaper, and every present entry before `k` is strictly dearer. */
  lemma {:induction false} FirstMinIsEarliestMinimum<T>(xs: seq<Option<(T, real)>>)
    requires FirstMin(xs).Some?
    ensures exists k :: 0 <= k < |xs| && xs[k] == FirstMin(xs) && EarliestMinimumAt(xs, k)
  {
    var ys := xs[..|xs| - 1];
    var x := xs[|xs| - 1];
    assert forall k :: 0 <= k < |ys| ==> ys[k] == xs[k];
    var r := FirstMin(xs);
    if FirstMin(ys).None? {
      FirstMinNone(ys);
      assert r == x;
      assert EarliestMinimumAt(xs, |xs| - 1);
    } else {
      FirstMinIsEarliestMinimum(ys);
      var k :| 0 <= k < |ys| && ys[k] == FirstMin(ys) && EarliestMinimumAt(ys, k);
      if r == FirstMin(ys) {
        assert EarliestMinimumAt(xs, k);
      } else {
        assert EarliestMinimumAt(xs, |xs| - 1);
      }
    }
  }

  /** Entry `k` is present, no present entry is cheaper, and every present entry before it is dearer. */
  predicate EarliestMinimumAt<T>(xs: seq<Option<(T, real)>>, k: int)
  {
    0 <= k < |xs| && xs[k].Some? &&
    (forall j :: 0 <= j < |xs| && xs[j].Some? ==> xs[k].value.1 <= xs[j].value.1) &&
    (forall j :: 0 <= j < k && xs[j].Some? ==> xs[k].value.1 < xs[j].value.1)
  }
}
