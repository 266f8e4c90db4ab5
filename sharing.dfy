/** The sharing pass: pairs of single-port (or read-only) single-block mappings of one circuit and
    one block shape are merged into one true-dual-port block, saving one block per merge.

    The pass is modelled as the source writes it. After collecting the candidates it runs three
    nested loops: for every outer candidate `o` that is still unshared, a full pairwise scan over
    `i < j` merges the first fitting partner of each unshared `i`. The exact-fill test of that
    scan adds the bit count of the OUTER candidate `o` (not of `i`) to the bit count of `j`. */
module Sharing {
  import opened RamTypes

  /** A sharing candidate: its position in the mapping vector and its logical bit count. */
  datatype Cand = Cand(idx: nat, bits: int)

  /** One merge of the pass: mapping `left` absorbs mapping `right`; `driver` is the outer
      candidate whose bit count passed the exact-fill test. */
  datatype Merge = Merge(left: nat, right: nat, driver: nat)

  /** The state the pass updates: the mappings, the already-shared flags, the block counter, and
      the log of merges performed so far. */
  datatype ShareState = ShareState(ms: seq<RamMapping>, shared: seq<bool>, blocks: int, merges: seq<Merge>)

  /** The candidate filter: the processed resource, read-only or single-port, a single block, no
      wider than the true-dual-port cap when there is one, and a logical bit count strictly between
      0 and the block's capacity. */
  predicate Eligible(m: RamMapping, cfg: PhysConfig)
  {
    m.physType == cfg.physType &&
    (m.mode == Rom || m.mode == SinglePort) &&
    m.physBlocks == 1 &&
    !(cfg.maxWidthTdp > 0 && m.physWidth > cfg.maxWidthTdp) &&
    0 < LogicalBits(m) < cfg.bits
  }

  predicate Sorted(cands: seq<Cand>)
  {
    forall p, q :: 0 <= p < q < |cands| ==> cands[p].idx < cands[q].idx
  }

  predicate InRange(cands: seq<Cand>, n: int)
  {
    forall p :: 0 <= p < |cands| ==> cands[p].idx < n
  }

  /** The candidates of `ms` in vector order, each with its logical bit count. */
  function Candidates(ms: seq<RamMapping>, cfg: PhysConfig): (cands: seq<Cand>)
    ensures InRange(cands, |ms|) && Sorted(cands)
    ensures forall p :: 0 <= p < |cands| ==>
              Eligible(ms[cands[p].idx], cfg) && cands[p].bits == LogicalBits(ms[cands[p].idx])
  {
    if ms == [] then []
    else
      var n := |ms| - 1;
      var front := Candidates(ms[..n], cfg);
      front + (if Eligible(ms[n], cfg) then [Cand(n, LogicalBits(ms[n]))] else [])
  }

  /** The state shape every loop of the pass works on. */
  predicate Fits(st: ShareState, cands: seq<Cand>)
  {
    |st.shared| == |st.ms| && InRange(cands, |st.ms|) && Sorted(cands)
  }

  /** The state before the pairing loops: nothing shared, nothing merged. */
  function Start(ms: seq<RamMapping>, total: int): ShareState
  {
    ShareState(ms, seq(|ms|, _ => false), total, [])
  }

  /** How a state can evolve under the pass: same lengths, every field except mode and group id
      kept, shared flags only ever set, a shared mapping frozen, a newly shared mapping true dual
      port, and a mapping that is still unshared left untouched. */
  predicate Grows(st: ShareState, st': ShareState)
  {
    |st'.ms| == |st.ms| && |st'.shared| == |st.shared| && |st.shared| == |st.ms| &&
    (forall k :: 0 <= k < |st.ms| ==> SameExceptModeGroup(st.ms[k], st'.ms[k])) &&
    (forall k :: 0 <= k < |st.ms| && st.shared[k] ==> st'.shared[k] && st'.ms[k] == st.ms[k]) &&
    (forall k :: 0 <= k < |st.ms| && st'.shared[k] && !st.shared[k] ==> st'.ms[k].mode == TrueDualPort) &&
    (forall k :: 0 <= k < |st.ms| && !st'.shared[k] ==> st'.ms[k] == st.ms[k])
  }

  lemma GrowsTransitive(a: ShareState, b: ShareState, c: ShareState)
    requires Grows(a, b) && Grows(b, c)
    ensures Grows(a, c)
  {
    forall k | 0 <= k < |a.ms|
      ensures SameExceptModeGroup(a.ms[k], c.ms[k])
    {
      assert SameExceptModeGroup(a.ms[k], b.ms[k]) && SameExceptModeGroup(b.ms[k], c.ms[k]);
    }
  }

  /** The innermost test of the pass for candidates `i < j`, with outer candidate `o`: `j` unshared,
      same circuit, same physical shape, the two logical depths fit in the chain's depth, and the
      outer candidate's bits plus `j`'s bits equal the block capacity. */
  predicate Pairable(st: ShareState, cands: seq<Cand>, o: int, i: int, j: int, cfg: PhysConfig)
    requires Fits(st, cands) && 0 <= o < |cands| && 0 <= i < |cands| && 0 <= j < |cands|
  {
    var mi := st.ms[cands[i].idx];
    var mj := st.ms[cands[j].idx];
    !st.shared[cands[j].idx] &&
    mi.circuitId == mj.circuitId &&
    mi.physWidth == mj.physWidth && mi.physDepth == mj.physDepth &&
    mi.series == mj.series && mi.parallel == mj.parallel &&
    mi.logicalDepth + mj.logicalDepth <= mi.physDepth * mi.series &&
    cands[o].bits + cands[j].bits == cfg.bits
  }

  /** Merge mapping `x` with mapping `y`: both become true dual port, `y` takes `x`'s group id,
      both are marked shared, and one block is saved. */
  function MergeAt(st: ShareState, x: nat, y: nat, driver: nat): (r: ShareState)
    requires |st.shared| == |st.ms| && x < y < |st.ms| && !st.shared[x] && !st.shared[y]
    ensures Grows(st, r)
  {
    var gid := st.ms[x].groupId;
    ShareState(st.ms[x := st.ms[x].(mode := TrueDualPort)][y := st.ms[y].(mode := TrueDualPort, groupId := gid)],
               st.shared[x := true][y := true],
               st.blocks - 1,
               st.merges + [Merge(x, y, driver)])
  }

  /** The innermost loop from position `j` on: merge `i` with the first pairable `j` and stop. */
  function Inner(st: ShareState, cands: seq<Cand>, o: int, i: int, j: int, cfg: PhysConfig): (r: ShareState)
    requires Fits(st, cands) && 0 <= o < |cands| && 0 <= i < j <= |cands| && !st.shared[cands[i].idx]
    ensures Fits(r, cands) && Grows(st, r)
    decreases |cands| - j
  {
    if j == |cands| then st
    else if Pairable(st, cands, o, i, j, cfg) then MergeAt(st, cands[i].idx, cands[j].idx, cands[o].idx)
    else Inner(st, cands, o, i, j + 1, cfg)
  }

  /** The middle loop from position `i` on: every still-unshared `i` scans its later partners. */
  function Middle(st: ShareState, cands: seq<Cand>, o: int, i: int, cfg: PhysConfig): (r: ShareState)
    requires Fits(st, cands) && 0 <= o < |cands| && 0 <= i <= |cands|
    ensures Fits(r, cands) && Grows(st, r)
    decreases |cands| - i
  {
    if i == |cands| then st
    else if st.shared[cands[i].idx] then Middle(st, cands, o, i + 1, cfg)
    else
      var st1 := Inner(st, cands, o, i, i + 1, cfg);
      var r := Middle(st1, cands, o, i + 1, cfg);
      GrowsTransitive(st, st1, r);
      r
  }

  /** The outer loop from position `o` on: every still-unshared outer candidate drives a full
      middle pass with its own bit count. */
  function Outer(st: ShareState, cands: seq<Cand>, o: int, cfg: PhysConfig): (r: ShareState)
    requires Fits(st, cands) && 0 <= o <= |cands|
    ensures Fits(r, cands) && Grows(st, r)
    decreases |cands| - o
  {
    if o == |cands| then st
    else if st.shared[cands[o].idx] then Outer(st, cands, o + 1, cfg)
    else
      var st1 := Middle(st, cands, o, 0, cfg);
      var r := Outer(st1, cands, o + 1, cfg);
      GrowsTransitive(st, st1, r);
      r
  }

  /** The whole pass for one resource, from the mapping vector and the block total. */
  function SharePass(ms: seq<RamMapping>, cfg: PhysConfig, total: int): ShareState
  {
    Outer(Start(ms, total), Candidates(ms, cfg), 0, cfg)
  }

  /** The pass for a resource that may be absent from the architecture: the mappings and the
      block total after it. */
  function ShareIfPresent(ms: seq<RamMapping>, cfg: Option<PhysConfig>, total: int): (seq<RamMapping>, int)
  {
    match cfg
    case None => (ms, total)
    case Some(c) => (SharePass(ms, c, total).ms, SharePass(ms, c, total).blocks)
  }

  /** Sharing for the whole run: the 8K pass first, then the 128K pass on its output. */
  function ShareAll(ms: seq<RamMapping>, m8kCfg: Option<PhysConfig>, m128kCfg: Option<PhysConfig>,
                   m8kBlocks: int, m128kBlocks: int): (seq<RamMapping>, int, int)
  {
    var (ms1, b8) := ShareIfPresent(ms, m8kCfg, m8kBlocks);
    var (ms2, b128) := ShareIfPresent(ms1, m128kCfg, m128kBlocks);
    (ms2, b8, b128)
  }

  /** The candidate filter loop of the pass. */
  method CollectCandidates(mappings: array<RamMapping>, cfg: PhysConfig) returns (candidates: seq<Cand>)
    ensures candidates == Candidates(mappings[..], cfg)
  {
    candidates := [];
    for idx := 0 to mappings.Length
      invariant candidates == Candidates(mappings[..idx], cfg)
    {
      assert mappings[..idx + 1][..idx] == mappings[..idx];
      var m := mappings[idx];
      if m.physType != cfg.physType {
        continue;
      }
      if m.mode != Rom && m.mode != SinglePort {
        continue;
      }
      if m.physBlocks != 1 {
        continue;
      }
      if cfg.maxWidthTdp > 0 && m.physWidth > cfg.maxWidthTdp {
        continue;
      }
      var logicalBits := m.logicalWidth * m.logicalDepth;
      if logicalBits <= 0 || logicalBits >= cfg.bits {
        continue;
      }
      candidates := candidates + [Cand(idx, logicalBits)];
    }
    assert mappings[..mappings.Length] == mappings[..];
  }

  /** One merge, in place: mapping `x` keeps its group, `y` joins it, both become true dual port. */
  method MergeInPlace(mappings: array<RamMapping>, alreadyShared: array<bool>, x: nat, y: nat,
                      ghost st: ShareState, ghost driver: nat)
    requires st.ms == mappings[..] && st.shared == alreadyShared[..]
    requires |st.shared| == |st.ms| && x < y < |st.ms| && !st.shared[x] && !st.shared[y]
    modifies mappings, alreadyShared
    ensures mappings[..] == MergeAt(st, x, y, driver).ms
    ensures alreadyShared[..] == MergeAt(st, x, y, driver).shared
  {
    alreadyShared[x] := true;
    alreadyShared[y] := true;
    var gid := mappings[x].groupId;
    mappings[x] := mappings[x].(mode := TrueDualPort);
    mappings[y] := mappings[y].(mode := TrueDualPort, groupId := gid);
  }

  /** The innermost loop: candidate `i` looks for its first partner `j > i` and merges with it. */
  method PartnerScan(mappings: array<RamMapping>, alreadyShared: array<bool>, candidates: seq<Cand>,
                     o: nat, i: nat, cfg: PhysConfig, total: int, ghost merges: seq<Merge>)
    returns (newTotal: int, ghost merges': seq<Merge>)
    requires Fits(ShareState(mappings[..], alreadyShared[..], total, merges), candidates)
    requires o < |candidates| && i < |candidates| && !alreadyShared[candidates[i].idx]
    modifies mappings, alreadyShared
    ensures ShareState(mappings[..], alreadyShared[..], newTotal, merges')
            == Inner(ShareState(old(mappings[..]), old(alreadyShared[..]), total, merges), candidates, o, i, i + 1, cfg)
  {
    ghost var before := ShareState(mappings[..], alreadyShared[..], total, merges);
    newTotal, merges' := total, merges;
    var idxI, idxO, bitsO := candidates[i].idx, candidates[o].idx, candidates[o].bits;
    for j := i + 1 to |candidates|
      invariant ShareState(mappings[..], alreadyShared[..], newTotal, merges') == before
      invariant Inner(before, candidates, o, i, j, cfg) == Inner(before, candidates, o, i, i + 1, cfg)
    {
      var idxJ, bitsJ := candidates[j].idx, candidates[j].bits;
      if alreadyShared[idxJ] {
        continue;
      }
      if mappings[idxI].circuitId != mappings[idxJ].circuitId {
        continue;
      }
      if mappings[idxI].physWidth != mappings[idxJ].physWidth
         || mappings[idxI].physDepth != mappings[idxJ].physDepth
         || mappings[idxI].series != mappings[idxJ].series
         || mappings[idxI].parallel != mappings[idxJ].parallel
      {
        continue;
      }
      var totalPhysDepth := mappings[idxI].physDepth * mappings[idxI].series;
      var combinedLogicalDepth := mappings[idxI].logicalDepth + mappings[idxJ].logicalDepth;
      if combinedLogicalDepth > totalPhysDepth {
        continue;
      }
      if bitsO + bitsJ == cfg.bits {
        assert Pairable(before, candidates, o, i, j, cfg);
        MergeInPlace(mappings, alreadyShared, idxI, idxJ, before, idxO);
        newTotal := newTotal - 1;
        merges' := merges' + [Merge(idxI, idxJ, idxO)];
        return;
      }
    }
  }

  /** The middle loop for outer candidate `o`: every unshared candidate scans for a partner. */
  method MiddlePass(mappings: array<RamMapping>, alreadyShared: array<bool>, candidates: seq<Cand>,
                    o: nat, cfg: PhysConfig, total: int, ghost merges: seq<Merge>)
    returns (newTotal: int, ghost merges': seq<Merge>)
    requires Fits(ShareState(mappings[..], alreadyShared[..], total, merges), candidates)
    requires o < |candidates|
    modifies mappings, alreadyShared
    ensures ShareState(mappings[..], alreadyShared[..], newTotal, merges')
            == Middle(ShareState(old(mappings[..]), old(alreadyShared[..]), total, merges), candidates, o, 0, cfg)
  {
    ghost var target := Middle(ShareState(mappings[..], alreadyShared[..], total, merges), candidates, o, 0, cfg);
    newTotal, merges' := total, merges;
    for i := 0 to |candidates|
      invariant Fits(ShareState(mappings[..], alreadyShared[..], newTotal, merges'), candidates)
      invariant Middle(ShareState(mappings[..], alreadyShared[..], newTotal, merges'), candidates, o, i, cfg) == target
    {
      if alreadyShared[candidates[i].idx] {
        continue;
      }
      newTotal, merges' := PartnerScan(mappings, alreadyShared, candidates, o, i, cfg, newTotal, merges');
    }
  }

  /** The pass of the source, in place on the mapping vector; returns the new block total. */
  method ShareType(mappings: array<RamMapping>, cfg: PhysConfig, totalBlocks: int) returns (newTotal: int)
    modifies mappings
    ensures mappings[..] == SharePass(old(mappings[..]), cfg, totalBlocks).ms
    ensures newTotal == SharePass(old(mappings[..]), cfg, totalBlocks).blocks
  {
    var candidates := CollectCandidates(mappings, cfg);
    var alreadyShared := new bool[mappings.Length](_ => false);
    assert alreadyShared[..] == Start(mappings[..], totalBlocks).shared;
    newTotal := totalBlocks;
    ghost var merges: seq<Merge> := [];
    ghost var final := SharePass(mappings[..], cfg, totalBlocks);
    for o := 0 to |candidates|
      invariant Fits(ShareState(mappings[..], alreadyShared[..], newTotal, merges), candidates)
      invariant Outer(ShareState(mappings[..], alreadyShared[..], newTotal, merges), candidates, o, cfg) == final
    {
      if alreadyShared[candidates[o].idx] {
        continue;
      }
      newTotal, merges := MiddlePass(mappings, alreadyShared, candidates, o, cfg, newTotal, merges);
    }
  }

  /** Sharing for the whole run, in place: one pass per block RAM present in the architecture. */
  method ApplySharing(mappings: array<RamMapping>, m8kCfg: Option<PhysConfig>, m128kCfg: Option<PhysConfig>,
                      m8kBlocks: int, m128kBlocks: int)
    returns (m8kBlocks': int, m128kBlocks': int)
    modifies mappings
    ensures (mappings[..], m8kBlocks', m128kBlocks') == ShareAll(old(mappings[..]), m8kCfg, m128kCfg, m8kBlocks, m128kBlocks)
  {
    m8kBlocks', m128kBlocks' := m8kBlocks, m128kBlocks;
    if m8kCfg.Some? {
      m8kBlocks' := ShareType(mappings, m8kCfg.value, m8kBlocks);
    }
    if m128kCfg.Some? {
      m128kBlocks' := ShareType(mappings, m128kCfg.value, m128kBlocks);
    }
  }
}
