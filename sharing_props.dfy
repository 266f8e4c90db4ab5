/** What the sharing pass guarantees: which mappings it merges and how it rewrites them, what it
    leaves alone, that it leaves no pair its own test would accept, and that a second run changes
    nothing. */
module SharingProps {
  import opened RamTypes
  import opened Sharing

  /** The pass's pairing test on the mappings themselves: `mi` and `mj` in one circuit with one
      physical shape, their logical depths fitting the chain's depth, and `bitsO + bitsJ` filling
      the block exactly. */
  predicate Fit(mi: RamMapping, mj: RamMapping, bitsO: int, bitsJ: int, cfg: PhysConfig)
  {
    mi.circuitId == mj.circuitId &&
    mi.physWidth == mj.physWidth && mi.physDepth == mj.physDepth &&
    mi.series == mj.series && mi.parallel == mj.parallel &&
    mi.logicalDepth + mj.logicalDepth <= mi.physDepth * mi.series &&
    bitsO + bitsJ == cfg.bits
  }

  /** Merge `g` of a run on `ms0` that ended (or stands) in `st`: both sides and the driver are
      candidates, the pair passes the test with the driver's bits, both sides are shared, `left`
      only changed to true dual port, and `right` also joined `left`'s original group. */
  predicate MergeOK(ms0: seq<RamMapping>, st: ShareState, g: Merge, cfg: PhysConfig)
  {
    g.left < g.right < |ms0| && g.driver < |ms0| && |st.ms| == |ms0| && |st.shared| == |ms0| &&
    Eligible(ms0[g.left], cfg) && Eligible(ms0[g.right], cfg) && Eligible(ms0[g.driver], cfg) &&
    Fit(ms0[g.left], ms0[g.right], LogicalBits(ms0[g.driver]), LogicalBits(ms0[g.right]), cfg) &&
    st.shared[g.left] && st.shared[g.right] &&
    st.ms[g.left] == ms0[g.left].(mode := TrueDualPort) &&
    st.ms[g.right] == ms0[g.right].(mode := TrueDualPort, groupId := ms0[g.left].groupId)
  }

  /** Two merges touch four distinct mappings. */
  predicate Disjoint(g: Merge, h: Merge)
  {
    g.left != h.left && g.left != h.right && g.right != h.left && g.right != h.right
  }

  /** The mappings on either side of the logged merges. */
  function Sides(merges: seq<Merge>): set<int>
  {
    if merges == [] then {}
    else Sides(merges[..|merges| - 1]) + {merges[|merges| - 1].left, merges[|merges| - 1].right}
  }

  /** A member of `Sides` is a side of some logged merge. */
  lemma {:induction false} SidesWitness(merges: seq<Merge>, k: int) returns (q: int)
    requires k in Sides(merges)
    ensures 0 <= q < |merges| && (merges[q].left == k || merges[q].right == k)
  {
    var n := |merges| - 1;
    if k in Sides(merges[..n]) {
      q := SidesWitness(merges[..n], k);
    } else {
      q := n;
    }
  }

  /** The merge log explains the state: one block saved per merge, every merge as described,
      merges pairwise disjoint, and every shared mapping a side of some merge. */
  predicate LogOK(ms0: seq<RamMapping>, total: int, st: ShareState, cfg: PhysConfig)
  {
    st.blocks == total - |st.merges| &&
    (forall q :: 0 <= q < |st.merges| ==> MergeOK(ms0, st, st.merges[q], cfg)) &&
    (forall q, q' :: 0 <= q < q' < |st.merges| ==> Disjoint(st.merges[q], st.merges[q'])) &&
    (forall k :: 0 <= k < |st.shared| && st.shared[k] ==> k in Sides(st.merges))
  }

  /** The pass's own conditions on the current state: built from `ms0`'s candidates and grown
      from the start state, with the log explaining it. */
  predicate RunOK(ms0: seq<RamMapping>, total: int, cands: seq<Cand>, st: ShareState, cfg: PhysConfig)
  {
    cands == Candidates(ms0, cfg) && Grows(Start(ms0, total), st) && Fits(st, cands) &&
    LogOK(ms0, total, st, cfg)
  }

  /** Facts about one merge step that every part of the log argument uses. */
  predicate MergeStep(ms0: seq<RamMapping>, total: int, cands: seq<Cand>, st: ShareState, cfg: PhysConfig,
                      o: int, i: int, j: int)
  {
    RunOK(ms0, total, cands, st, cfg) &&
    0 <= o < |cands| && 0 <= i < j < |cands| && !st.shared[cands[i].idx] &&
    Pairable(st, cands, o, i, j, cfg)
  }

  lemma MergeLogsNewMerge(ms0: seq<RamMapping>, total: int, cands: seq<Cand>, st: ShareState, cfg: PhysConfig,
                          o: int, i: int, j: int)
    requires MergeStep(ms0, total, cands, st, cfg, o, i, j)
    ensures var st' := MergeAt(st, cands[i].idx, cands[j].idx, cands[o].idx);
            forall q :: 0 <= q < |st'.merges| ==> MergeOK(ms0, st', st'.merges[q], cfg)
  {
    var x, y, d := cands[i].idx, cands[j].idx, cands[o].idx;
    var st' := MergeAt(st, x, y, d);
    assert st.ms[x] == ms0[x] && st.ms[y] == ms0[y];
    forall q | 0 <= q < |st'.merges|
      ensures MergeOK(ms0, st', st'.merges[q], cfg)
    {
      if q < |st.merges| {
        assert st'.merges[q] == st.merges[q];
        assert MergeOK(ms0, st, st.merges[q], cfg);
      } else {
        assert st'.merges[q] == Merge(x, y, d);
      }
    }
  }

  lemma MergeKeepsDisjoint(ms0: seq<RamMapping>, total: int, cands: seq<Cand>, st: ShareState, cfg: PhysConfig,
                           o: int, i: int, j: int)
    requires MergeStep(ms0, total, cands, st, cfg, o, i, j)
    ensures var st' := MergeAt(st, cands[i].idx, cands[j].idx, cands[o].idx);
            forall q, q' :: 0 <= q < q' < |st'.merges| ==> Disjoint(st'.merges[q], st'.merges[q'])
  {
    var x, y, d := cands[i].idx, cands[j].idx, cands[o].idx;
    var st' := MergeAt(st, x, y, d);
    forall q, q' | 0 <= q < q' < |st'.merges|
      ensures Disjoint(st'.merges[q], st'.merges[q'])
    {
      assert st'.merges[q] == st.merges[q];
      if q' == |st.merges| {
        assert MergeOK(ms0, st, st.merges[q], cfg);
        assert st'.merges[q'] == Merge(x, y, d);
      } else {
        assert st'.merges[q'] == st.merges[q'];
      }
    }
  }

  lemma MergeKeepsCover(ms0: seq<RamMapping>, total: int, cands: seq<Cand>, st: ShareState, cfg: PhysConfig,
                        o: int, i: int, j: int)
    requires MergeStep(ms0, total, cands, st, cfg, o, i, j)
    ensures var st' := MergeAt(st, cands[i].idx, cands[j].idx, cands[o].idx);
            forall k :: 0 <= k < |st'.shared| && st'.shared[k] ==> k in Sides(st'.merges)
  {
    var x, y, d := cands[i].idx, cands[j].idx, cands[o].idx;
    var st' := MergeAt(st, x, y, d);
    assert st'.merges[..|st'.merges| - 1] == st.merges;
    assert Sides(st'.merges) == Sides(st.merges) + {x, y};
  }

  lemma MergeKeepsLog(ms0: seq<RamMapping>, total: int, cands: seq<Cand>, st: ShareState, cfg: PhysConfig,
                      o: int, i: int, j: int)
    requires MergeStep(ms0, total, cands, st, cfg, o, i, j)
    ensures RunOK(ms0, total, cands, MergeAt(st, cands[i].idx, cands[j].idx, cands[o].idx), cfg)
  {
    var st' := MergeAt(st, cands[i].idx, cands[j].idx, cands[o].idx);
    MergeLogsNewMerge(ms0, total, cands, st, cfg, o, i, j);
    MergeKeepsDisjoint(ms0, total, cands, st, cfg, o, i, j);
    MergeKeepsCover(ms0, total, cands, st, cfg, o, i, j);
    GrowsTransitive(Start(ms0, total), st, st');
  }

  /** The innermost loop merges `i` with the first pairable `j'` from `j` on, or returns the state
      unchanged when there is none. */
  lemma {:induction false} InnerFirstPartner(st: ShareState, cands: seq<Cand>, cfg: PhysConfig, o: int, i: int, j: int)
    returns (j': int)
    requires Fits(st, cands) && 0 <= o < |cands| && 0 <= i < j <= |cands| && !st.shared[cands[i].idx]
    ensures j <= j' <= |cands|
    ensures forall jj :: j <= jj < j' ==> !Pairable(st, cands, o, i, jj, cfg)
    ensures j' == |cands| ==> Inner(st, cands, o, i, j, cfg) == st
    ensures j' < |cands| ==> Pairable(st, cands, o, i, j', cfg) &&
                             Inner(st, cands, o, i, j, cfg) == MergeAt(st, cands[i].idx, cands[j'].idx, cands[o].idx)
    decreases |cands| - j
  {
    if j == |cands| || Pairable(st, cands, o, i, j, cfg) {
      j' := j;
    } else {
      j' := InnerFirstPartner(st, cands, cfg, o, i, j + 1);
    }
  }

  lemma InnerKeepsLog(ms0: seq<RamMapping>, total: int, cands: seq<Cand>, st: ShareState,
                      cfg: PhysConfig, o: int, i: int)
    requires RunOK(ms0, total, cands, st, cfg)
    requires 0 <= o < |cands| && 0 <= i < |cands| && !st.shared[cands[i].idx]
    ensures RunOK(ms0, total, cands, Inner(st, cands, o, i, i + 1, cfg), cfg)
  {
    var j := InnerFirstPartner(st, cands, cfg, o, i, i + 1);
    if j < |cands| {
      MergeKeepsLog(ms0, total, cands, st, cfg, o, i, j);
    }
  }

  lemma {:induction false} MiddleKeepsLog(ms0: seq<RamMapping>, total: int, cands: seq<Cand>, st: ShareState,
                                          cfg: PhysConfig, o: int, i: int)
    requires RunOK(ms0, total, cands, st, cfg)
    requires 0 <= o < |cands| && 0 <= i <= |cands|
    ensures RunOK(ms0, total, cands, Middle(st, cands, o, i, cfg), cfg)
    decreases |cands| - i
  {
    if i < |cands| {
      if st.shared[cands[i].idx] {
        MiddleKeepsLog(ms0, total, cands, st, cfg, o, i + 1);
      } else {
        InnerKeepsLog(ms0, total, cands, st, cfg, o, i);
        MiddleKeepsLog(ms0, total, cands, Inner(st, cands, o, i, i + 1, cfg), cfg, o, i + 1);
      }
    }
  }

  lemma {:induction false} OuterKeepsLog(ms0: seq<RamMapping>, total: int, cands: seq<Cand>, st: ShareState,
                                         cfg: PhysConfig, o: int)
    requires RunOK(ms0, total, cands, st, cfg)
    requires 0 <= o <= |cands|
    ensures RunOK(ms0, total, cands, Outer(st, cands, o, cfg), cfg)
    decreases |cands| - o
  {
    if o < |cands| {
      if st.shared[cands[o].idx] {
        OuterKeepsLog(ms0, total, cands, st, cfg, o + 1);
      } else {
        MiddleKeepsLog(ms0, total, cands, st, cfg, o, 0);
        OuterKeepsLog(ms0, total, cands, Middle(st, cands, o, 0, cfg), cfg, o + 1);
      }
    }
  }

  /** The whole pass satisfies the run invariant. */
  lemma SharePassRunOK(ms: seq<RamMapping>, cfg: PhysConfig, total: int)
    ensures RunOK(ms, total, Candidates(ms, cfg), SharePass(ms, cfg, total), cfg)
  {
    var st0 := Start(ms, total);
    assert Grows(st0, st0);
    OuterKeepsLog(ms, total, Candidates(ms, cfg), st0, cfg, 0);
  }

  /** Every mapping the pass changes is one side of exactly described merge; the merges are
      pairwise disjoint and each saves one block. */
  lemma ShareTypeMerges(ms: seq<RamMapping>, cfg: PhysConfig, total: int)
    ensures var r := SharePass(ms, cfg, total);
            |r.ms| == |ms| &&
            r.blocks == total - |r.merges| &&
            (forall q :: 0 <= q < |r.merges| ==> MergeOK(ms, r, r.merges[q], cfg)) &&
            (forall q, q' :: 0 <= q < q' < |r.merges| ==> Disjoint(r.merges[q], r.merges[q'])) &&
            (forall k :: 0 <= k < |ms| && k !in Sides(r.merges) ==> r.ms[k] == ms[k])
  {
    SharePassRunOK(ms, cfg, total);
  }

  /** Frame of the pass: only mode and group id ever change, and a mapping that is not a candidate
      (another resource, already dual port, several blocks, too wide, empty or full) is untouched. */
  lemma ShareTypeFrame(ms: seq<RamMapping>, cfg: PhysConfig, total: int)
    ensures var r := SharePass(ms, cfg, total);
            |r.ms| == |ms| &&
            (forall k :: 0 <= k < |ms| ==> SameExceptModeGroup(ms[k], r.ms[k])) &&
            (forall k :: 0 <= k < |ms| && !Eligible(ms[k], cfg) ==> r.ms[k] == ms[k])
  {
    var r := SharePass(ms, cfg, total);
    SharePassRunOK(ms, cfg, total);
    forall k | 0 <= k < |ms| && !Eligible(ms[k], cfg)
      ensures r.ms[k] == ms[k]
    {
      if r.shared[k] {
        // a shared mapping is a side of a merge, and merge sides are candidates
        var q := SidesWitness(r.merges, k);
      }
    }
  }

  /** After candidate `i` has been scanned for outer candidate `o`, it is shared or has no partner. */
  predicate NoPartner(st: ShareState, cands: seq<Cand>, o: int, i: int, cfg: PhysConfig)
    requires Fits(st, cands) && 0 <= o < |cands| && 0 <= i < |cands|
  {
    st.shared[cands[i].idx] || forall j :: i < j < |cands| ==> !Pairable(st, cands, o, i, j, cfg)
  }

  /** After the outer iteration for `o`: `o` is shared or no candidate has a partner for it. */
  predicate DoneFor(st: ShareState, cands: seq<Cand>, o: int, cfg: PhysConfig)
    requires Fits(st, cands) && 0 <= o < |cands|
  {
    st.shared[cands[o].idx] || forall i :: 0 <= i < |cands| ==> NoPartner(st, cands, o, i, cfg)
  }

  /** The pairing test only gets harder as the pass goes on. */
  lemma PairableGrows(st: ShareState, st': ShareState, cands: seq<Cand>, cfg: PhysConfig, o: int, i: int, j: int)
    requires Fits(st, cands) && Grows(st, st') && 0 <= o < |cands| && 0 <= i < |cands| && 0 <= j < |cands|
    requires Pairable(st', cands, o, i, j, cfg)
    ensures Pairable(st, cands, o, i, j, cfg)
  {
    assert SameExceptModeGroup(st.ms[cands[i].idx], st'.ms[cands[i].idx]);
    assert SameExceptModeGroup(st.ms[cands[j].idx], st'.ms[cands[j].idx]);
  }

  lemma NoPartnerGrows(st: ShareState, st': ShareState, cands: seq<Cand>, cfg: PhysConfig, o: int, i: int)
    requires Fits(st, cands) && Grows(st, st') && 0 <= o < |cands| && 0 <= i < |cands|
    requires NoPartner(st, cands, o, i, cfg)
    ensures Fits(st', cands) && NoPartner(st', cands, o, i, cfg)
  {
    if !st'.shared[cands[i].idx] {
      forall j | i < j < |cands|
        ensures !Pairable(st', cands, o, i, j, cfg)
      {
        if Pairable(st', cands, o, i, j, cfg) {
          PairableGrows(st, st', cands, cfg, o, i, j);
        }
      }
    }
  }

  lemma DoneForGrows(st: ShareState, st': ShareState, cands: seq<Cand>, cfg: PhysConfig, o: int)
    requires Fits(st, cands) && Grows(st, st') && 0 <= o < |cands|
    requires DoneFor(st, cands, o, cfg)
    ensures Fits(st', cands) && DoneFor(st', cands, o, cfg)
  {
    if !st'.shared[cands[o].idx] {
      forall i | 0 <= i < |cands|
        ensures NoPartner(st', cands, o, i, cfg)
      {
        NoPartnerGrows(st, st', cands, cfg, o, i);
      }
    }
  }

  lemma InnerNoPartner(st: ShareState, cands: seq<Cand>, cfg: PhysConfig, o: int, i: int)
    requires Fits(st, cands) && 0 <= o < |cands| && 0 <= i < |cands| && !st.shared[cands[i].idx]
    ensures NoPartner(Inner(st, cands, o, i, i + 1, cfg), cands, o, i, cfg)
  {
    var j := InnerFirstPartner(st, cands, cfg, o, i, i + 1);
  }

  lemma {:induction false} MiddleNoPartner(st: ShareState, cands: seq<Cand>, cfg: PhysConfig, o: int, i: int)
    requires Fits(st, cands) && 0 <= o < |cands| && 0 <= i <= |cands|
    ensures forall i' :: i <= i' < |cands| ==> NoPartner(Middle(st, cands, o, i, cfg), cands, o, i', cfg)
    decreases |cands| - i
  {
    if i < |cands| {
      var r := Middle(st, cands, o, i, cfg);
      var st1 := if st.shared[cands[i].idx] then st else Inner(st, cands, o, i, i + 1, cfg);
      if !st.shared[cands[i].idx] {
        InnerNoPartner(st, cands, cfg, o, i);
      }
      assert r == Middle(st1, cands, o, i + 1, cfg);
      MiddleNoPartner(st1, cands, cfg, o, i + 1);
      NoPartnerGrows(st1, r, cands, cfg, o, i);
    }
  }

  lemma {:induction false} OuterDone(st: ShareState, cands: seq<Cand>, cfg: PhysConfig, o: int)
    requires Fits(st, cands) && 0 <= o <= |cands|
    ensures forall o' :: o <= o' < |cands| ==> DoneFor(Outer(st, cands, o, cfg), cands, o', cfg)
    decreases |cands| - o
  {
    if o < |cands| {
      var r := Outer(st, cands, o, cfg);
      var st1 := if st.shared[cands[o].idx] then st else Middle(st, cands, o, 0, cfg);
      if !st.shared[cands[o].idx] {
        MiddleNoPartner(st, cands, cfg, o, 0);
      }
      assert DoneFor(st1, cands, o, cfg);
      assert r == Outer(st1, cands, o + 1, cfg);
      OuterDone(st1, cands, cfg, o + 1);
      DoneForGrows(st1, r, cands, cfg, o);
    }
  }

  /** The pass leaves no opportunity its own test would take: for every outer candidate and
      every pair `i < j` that all remain unshared, the test fails. */
  lemma ShareTypeLeavesNoPair(ms: seq<RamMapping>, cfg: PhysConfig, total: int)
    ensures var r := SharePass(ms, cfg, total);
            var cands := Candidates(ms, cfg);
            Fits(r, cands) &&
            forall o, i, j :: 0 <= o < |cands| && 0 <= i < j < |cands| &&
                              !r.shared[cands[o].idx] && !r.shared[cands[i].idx] ==>
                                !Pairable(r, cands, o, i, j, cfg)
  {
    var r := SharePass(ms, cfg, total);
    var cands := Candidates(ms, cfg);
    OuterDone(Start(ms, total), cands, cfg, 0);
    forall o, i, j | 0 <= o < |cands| && 0 <= i < j < |cands| && !r.shared[cands[o].idx] && !r.shared[cands[i].idx]
      ensures !Pairable(r, cands, o, i, j, cfg)
    {
      assert DoneFor(r, cands, o, cfg);
      assert NoPartner(r, cands, o, i, cfg);
    }
  }

  /** Every candidate mapping appears in the candidate list. */
  lemma {:induction false} CandidatesComplete(ms: seq<RamMapping>, cfg: PhysConfig, k: int) returns (p: int)
    requires 0 <= k < |ms| && Eligible(ms[k], cfg)
    ensures 0 <= p < |Candidates(ms, cfg)| && Candidates(ms, cfg)[p].idx == k
  {
    var n := |ms| - 1;
    if k == n {
      p := |Candidates(ms[..n], cfg)|;
    } else {
      assert ms[..n][k] == ms[k];
      p := CandidatesComplete(ms[..n], cfg, k);
    }
  }

  /** The test finds no pair anywhere in the state. */
  predicate NoPairs(st: ShareState, cands: seq<Cand>, cfg: PhysConfig)
    requires Fits(st, cands)
  {
    forall o, i, j :: 0 <= o < |cands| && 0 <= i < j < |cands| ==> !Pairable(st, cands, o, i, j, cfg)
  }

  lemma {:induction false} MiddleQuiet(st: ShareState, cands: seq<Cand>, cfg: PhysConfig, o: int, i: int)
    requires Fits(st, cands) && NoPairs(st, cands, cfg) && 0 <= o < |cands| && 0 <= i <= |cands|
    ensures Middle(st, cands, o, i, cfg) == st
    decreases |cands| - i
  {
    if i < |cands| {
      if !st.shared[cands[i].idx] {
        var j := InnerFirstPartner(st, cands, cfg, o, i, i + 1);
      }
      MiddleQuiet(st, cands, cfg, o, i + 1);
    }
  }

  lemma {:induction false} OuterQuiet(st: ShareState, cands: seq<Cand>, cfg: PhysConfig, o: int)
    requires Fits(st, cands) && NoPairs(st, cands, cfg) && 0 <= o <= |cands|
    ensures Outer(st, cands, o, cfg) == st
    decreases |cands| - o
  {
    if o < |cands| {
      if !st.shared[cands[o].idx] {
        MiddleQuiet(st, cands, cfg, o, 0);
      }
      OuterQuiet(st, cands, cfg, o + 1);
    }
  }

  /** A candidate of the pass's output was a candidate of its input that stayed unshared and
      unchanged. */
  lemma OutputCandidate(ms: seq<RamMapping>, cfg: PhysConfig, total: int, k: int) returns (p: int)
    requires 0 <= k < |SharePass(ms, cfg, total).ms| && Eligible(SharePass(ms, cfg, total).ms[k], cfg)
    ensures var r := SharePass(ms, cfg, total);
            !r.shared[k] && r.ms[k] == ms[k] &&
            0 <= p < |Candidates(ms, cfg)| && Candidates(ms, cfg)[p] == Cand(k, LogicalBits(ms[k]))
  {
    SharePassRunOK(ms, cfg, total);
    p := CandidatesComplete(ms, cfg, k);
  }

  /** Sharing is idempotent: a second run on the output, whatever block total it is given,
      changes no mapping and saves no block. */
  lemma ShareTypeIdempotent(ms: seq<RamMapping>, cfg: PhysConfig, total: int, total2: int)
    ensures var r := SharePass(ms, cfg, total);
            SharePass(r.ms, cfg, total2).ms == r.ms && SharePass(r.ms, cfg, total2).blocks == total2
  {
    var r := SharePass(ms, cfg, total);
    var cands := Candidates(ms, cfg);
    var cands2 := Candidates(r.ms, cfg);
    var st2 := Start(r.ms, total2);
    forall o, i, j | 0 <= o < |cands2| && 0 <= i < j < |cands2|
      ensures !Pairable(st2, cands2, o, i, j, cfg)
    {
      OutputHasNoPair(ms, cfg, total, total2, o, i, j);
    }
    OuterQuiet(st2, cands2, cfg, 0);
  }

  /** One triple of `ShareTypeIdempotent`: the output's candidates are unchanged, unshared input
      candidates, and the first pass left no pair of those pairable. */
  lemma OutputHasNoPair(ms: seq<RamMapping>, cfg: PhysConfig, total: int, total2: int, o: int, i: int, j: int)
    requires var cands2 := Candidates(SharePass(ms, cfg, total).ms, cfg);
             0 <= o < |cands2| && 0 <= i < j < |cands2|
    ensures var r := SharePass(ms, cfg, total);
            !Pairable(Start(r.ms, total2), Candidates(r.ms, cfg), o, i, j, cfg)
  {
    var r := SharePass(ms, cfg, total);
    var cands := Candidates(ms, cfg);
    var cands2 := Candidates(r.ms, cfg);
    ShareTypeLeavesNoPair(ms, cfg, total);
    var po := OutputCand(ms, cfg, total, o);
    var pi := OutputCand(ms, cfg, total, i);
    var pj := OutputCand(ms, cfg, total, j);
    assert cands[pi].idx < cands[pj].idx;
    assert !Pairable(r, cands, po, pi, pj, cfg);
  }

  /** Entry `x` of the output's candidate list is an input candidate left unshared and unchanged. */
  lemma OutputCand(ms: seq<RamMapping>, cfg: PhysConfig, total: int, x: int) returns (p: int)
    requires 0 <= x < |Candidates(SharePass(ms, cfg, total).ms, cfg)|
    ensures var r := SharePass(ms, cfg, total);
            var cands := Candidates(ms, cfg);
            var c := Candidates(r.ms, cfg)[x];
            0 <= p < |cands| && cands[p] == c && !r.shared[c.idx] && r.ms[c.idx] == ms[c.idx]
  {
    var r := SharePass(ms, cfg, total);
    var k := Candidates(r.ms, cfg)[x].idx;
    p := OutputCandidate(ms, cfg, total, k);
  }

  /** The exact-fill test adds the OUTER candidate's bit count to `j`'s, so a merged pair need not
      fill the block. Two single-port 8-bit memories of one circuit on 8-bit by 1024 blocks of 8192
      bits, holding 800 and 4096 bits, are merged while the outer candidate is the 4096-bit one
      (4096 + 4096 = 8192), although together they hold 4896 bits. */
  lemma ExactFillUsesDriverBits()
    ensures var cfg := PhysConfig(Ram8K, 8192, 32, 16);
            var m0 := RamMapping(0, 0, 0, 8, 100, 0, 1, 1, Ram8K, SinglePort, 8, 1024, 1);
            var m1 := RamMapping(0, 1, 0, 8, 512, 1, 1, 1, Ram8K, SinglePort, 8, 1024, 1);
            var r := SharePass([m0, m1], cfg, 2);
            LogicalBits(m0) + LogicalBits(m1) != cfg.bits &&
            r.ms == [m0.(mode := TrueDualPort), m1.(mode := TrueDualPort, groupId := 0)] &&
            r.blocks == 1 && r.merges == [Merge(0, 1, 1)]
  {
    var cfg := PhysConfig(Ram8K, 8192, 32, 16);
    var m0 := RamMapping(0, 0, 0, 8, 100, 0, 1, 1, Ram8K, SinglePort, 8, 1024, 1);
    var m1 := RamMapping(0, 1, 0, 8, 512, 1, 1, 1, Ram8K, SinglePort, 8, 1024, 1);
    var ms := [m0, m1];
    var cands := Candidates(ms, cfg);
    assert ms[..1] == [m0];
    assert Candidates([m0], cfg) == [Cand(0, 800)];
    assert cands == [Cand(0, 800), Cand(1, 4096)];
    var st0 := Start(ms, 2);
    assert st0.shared == [false, false];
    // outer candidate 0 (800 bits): 800 + 4096 misses the capacity, nothing merges
    assert !Pairable(st0, cands, 0, 0, 1, cfg);
    assert Inner(st0, cands, 0, 0, 1, cfg) == st0;
    assert Middle(st0, cands, 0, 1, cfg) == st0;
    assert Middle(st0, cands, 0, 0, cfg) == st0;
    // outer candidate 1 (4096 bits): 4096 + 4096 fills the block, candidates 0 and 1 merge
    assert Pairable(st0, cands, 1, 0, 1, cfg);
    var st1 := MergeAt(st0, 0, 1, 1);
    assert Inner(st0, cands, 1, 0, 1, cfg) == st1;
    assert st1.shared == [true, true];
    assert Middle(st1, cands, 1, 1, cfg) == st1;
    assert Middle(st0, cands, 1, 0, cfg) == st1;
    assert Outer(st1, cands, 2, cfg) == st1;
    assert Outer(st0, cands, 1, cfg) == st1;
    assert SharePass(ms, cfg, 2) == st1;
  }

  /** Some logged merge paired `a` (left) with `b` (right). */
  predicate Merged(merges: seq<Merge>, a: int, b: int)
  {
    exists q :: 0 <= q < |merges| && merges[q].left == a && merges[q].right == b
  }

  /** Two mappings that occupy one block together: both true dual port, one circuit, one resource
      and one physical shape. */
  predicate SharedBlock(m: RamMapping, m': RamMapping)
  {
    m.mode == TrueDualPort && m'.mode == TrueDualPort &&
    m.circuitId == m'.circuitId && m.physType == m'.physType &&
    m.physWidth == m'.physWidth && m.physDepth == m'.physDepth &&
    m.series == m'.series && m.parallel == m'.parallel
  }

  /** Both sides of every logged merge are in `Sides`. */
  lemma {:induction false} SidesContain(merges: seq<Merge>, q: int)
    requires 0 <= q < |merges|
    ensures merges[q].left in Sides(merges) && merges[q].right in Sides(merges)
  {
    var n := |merges| - 1;
    if q < n {
      assert merges[..n][q] == merges[q];
      SidesContain(merges[..n], q);
    }
  }

  /** Where a mapping's group id comes from after the pass: a mapping on no side of a merge is
      unchanged (`q == -1`); otherwise `q` is its merge, it was a candidate and is now true dual
      port, and it has its own old group id on the left, its left partner's on the right. */
  lemma GroupAfterPass(ms: seq<RamMapping>, cfg: PhysConfig, total: int, x: int) returns (q: int)
    requires 0 <= x < |ms|
    ensures var r := SharePass(ms, cfg, total);
            |r.ms| == |ms| && -1 <= q < |r.merges| &&
            (q == -1 ==> r.ms[x] == ms[x] &&
                         forall q' :: 0 <= q' < |r.merges| ==> r.merges[q'].left != x && r.merges[q'].right != x) &&
            (q >= 0 ==> Eligible(ms[x], cfg) && r.ms[x].mode == TrueDualPort &&
                        r.merges[q].left < r.merges[q].right < |ms| &&
                        Eligible(ms[r.merges[q].left], cfg) &&
                        (r.merges[q].left == x || r.merges[q].right == x)) &&
            (q >= 0 && r.merges[q].left == x ==> r.ms[x].groupId == ms[x].groupId) &&
            (q >= 0 && r.merges[q].right == x ==> r.ms[x].groupId == ms[r.merges[q].left].groupId)
  {
    var r := SharePass(ms, cfg, total);
    ShareTypeMerges(ms, cfg, total);
    if x in Sides(r.merges) {
      q := SidesWitness(r.merges, x);
      assert MergeOK(ms, r, r.merges[q], cfg);
    } else {
      q := -1;
      forall q' | 0 <= q' < |r.merges|
        ensures r.merges[q'].left != x && r.merges[q'].right != x
      {
        SidesContain(r.merges, q');
      }
    }
  }

  /** Group ids after the pass. When every candidate carries its own position as group id and no
      other mapping carries that id, two mappings share a group id after the pass exactly when the
      pass merged them or they shared one before; a pair that shared one before is untouched, and a
      merged pair occupies one block of the processed resource. */
  lemma GroupIdsIdentifyMerges(ms: seq<RamMapping>, cfg: PhysConfig, total: int)
    requires forall k :: 0 <= k < |ms| && Eligible(ms[k], cfg) ==> ms[k].groupId == k
    requires forall k, k' :: 0 <= k < |ms| && 0 <= k' < |ms| && k != k' && Eligible(ms[k], cfg) ==>
               ms[k'].groupId != k
    ensures var r := SharePass(ms, cfg, total);
            |r.ms| == |ms| &&
            (forall a, b :: 0 <= a < b < |ms| ==>
               (r.ms[a].groupId == r.ms[b].groupId <==> Merged(r.merges, a, b) || ms[a].groupId == ms[b].groupId)) &&
            (forall a, b :: 0 <= a < b < |ms| && ms[a].groupId == ms[b].groupId ==>
               r.ms[a] == ms[a] && r.ms[b] == ms[b]) &&
            (forall a, b :: 0 <= a < b < |ms| && Merged(r.merges, a, b) ==>
               SharedBlock(r.ms[a], r.ms[b]) && r.ms[a].physType == cfg.physType)
  {
    var r := SharePass(ms, cfg, total);
    ShareTypeMerges(ms, cfg, total);
    ShareTypeFrame(ms, cfg, total);
    forall a, b | 0 <= a < b < |ms| && ms[a].groupId == ms[b].groupId
      ensures r.ms[a] == ms[a] && r.ms[b] == ms[b]
    {
      // an eligible mapping's group id is its own, so neither side of the pair is eligible
      assert !Eligible(ms[a], cfg) && !Eligible(ms[b], cfg);
    }
    forall a, b | 0 <= a < b < |ms| && Merged(r.merges, a, b)
      ensures r.ms[a].groupId == r.ms[b].groupId
      ensures SharedBlock(r.ms[a], r.ms[b]) && r.ms[a].physType == cfg.physType
    {
      MergedShareBlock(ms, cfg, total, a, b);
    }
    forall a, b | 0 <= a < b < |ms| && r.ms[a].groupId == r.ms[b].groupId
      ensures Merged(r.merges, a, b) || ms[a].groupId == ms[b].groupId
    {
      GroupsMeet(ms, cfg, total, a, b);
    }
  }

  /** A merged pair ends in one group, true dual port, in one circuit, resource and shape. */
  lemma MergedShareBlock(ms: seq<RamMapping>, cfg: PhysConfig, total: int, a: int, b: int)
    requires 0 <= a < b < |ms| && Merged(SharePass(ms, cfg, total).merges, a, b)
    ensures var r := SharePass(ms, cfg, total);
            |r.ms| == |ms| && r.ms[a].groupId == r.ms[b].groupId &&
            SharedBlock(r.ms[a], r.ms[b]) && r.ms[a].physType == cfg.physType
  {
    var r := SharePass(ms, cfg, total);
    ShareTypeMerges(ms, cfg, total);
    var q :| 0 <= q < |r.merges| && r.merges[q].left == a && r.merges[q].right == b;
    assert MergeOK(ms, r, r.merges[q], cfg);
  }

  /** The forward half of `GroupIdsIdentifyMerges` for one pair. */
  lemma GroupsMeet(ms: seq<RamMapping>, cfg: PhysConfig, total: int, a: int, b: int)
    requires forall k :: 0 <= k < |ms| && Eligible(ms[k], cfg) ==> ms[k].groupId == k
    requires forall k, k' :: 0 <= k < |ms| && 0 <= k' < |ms| && k != k' && Eligible(ms[k], cfg) ==>
               ms[k'].groupId != k
    requires 0 <= a < b < |ms|
    requires SharePass(ms, cfg, total).ms[a].groupId == SharePass(ms, cfg, total).ms[b].groupId
    ensures Merged(SharePass(ms, cfg, total).merges, a, b) || ms[a].groupId == ms[b].groupId
  {
    var r := SharePass(ms, cfg, total);
    ShareTypeMerges(ms, cfg, total);
    var qa := GroupAfterPass(ms, cfg, total, a);
    var qb := GroupAfterPass(ms, cfg, total, b);
    if qa >= 0 && qb >= 0 {
      var ga, gb := r.merges[qa], r.merges[qb];
      // two different merges share no side, so `a` and `b` are the two sides of one merge
      if qa == qb {
        assert Merged(r.merges, a, b);
      }
    }
  }
}
