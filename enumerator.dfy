/** The per-type shape enumerator: for one logical memory and one physical resource, try every
    candidate physical width, derive the chain shape, and keep the cheapest candidate. */
module Enumerator {
  import opened Arith
  import opened RamTypes
  import opened Overhead
  import opened Selection

  /** The area cost of a candidate on a resource. The engine computes it in floating point; the
      model takes it as a parameter and proves the selection properties for every cost. */
  type CostFn = (RamMapping, PhysConfig) -> real

  function Pow2(k: nat): (r: nat)
    ensures r >= 1
  {
    if k == 0 then 1 else 2 * Pow2(k - 1)
  }

  /** `w, 2w, 4w, ...` while the value does not exceed `maxWidth`. */
  function PowersFrom(w: int, maxWidth: int): (ws: seq<int>)
    requires w >= 1
    ensures forall k :: 0 <= k < |ws| ==> w <= ws[k] <= maxWidth
    decreases maxWidth - w
  {
    if w > maxWidth then [] else [w] + PowersFrom(2 * w, maxWidth)
  }

  /** The physical widths tried on a resource: the two LUTRAM shapes, or the block-RAM widths. */
  function WidthCandidates(cfg: PhysConfig, maxWidth: int): seq<int>
  {
    if cfg.physType == Lutram then [10, 20] else PowersFrom(1, maxWidth)
  }

  /** The up-front rejection: true dual port on a resource without it, or no usable port width. */
  predicate Rejected(mode: MemMode, cfg: PhysConfig)
  {
    (mode == TrueDualPort && cfg.maxWidthTdp == 0) || EffectiveMaxWidth(mode, cfg) <= 0
  }

  /** The physical depth that goes with width `w`: the fixed LUTRAM shape, or the capacity divided
      by `w` when `w` divides it; None when the width is skipped. */
  function PhysDepthFor(cfg: PhysConfig, w: int): Option<int>
    requires w >= 1
  {
    if cfg.physType == Lutram then
      (if w == 10 then Some(64) else if w == 20 then Some(32) else None)
    else if Rem(cfg.bits, w) != 0 then None
    else Some(Quot(cfg.bits, w))
  }

  /** The mapping built from a chain of `s` by `p` blocks of `w` by `d` bits. */
  function Build(circuitId: int, mem: Memory, groupId: int, cfg: PhysConfig, w: int, d: int, s: int, p: int)
    : RamMapping
  {
    RamMapping(circuitId, mem.ramId, ExtraLuts(s, mem.width, mem.mode), mem.width, mem.depth,
               groupId, s, p, cfg.physType, mem.mode, w, d, s * p)
  }

  /** The candidate of physical width `w`, or None when that width is skipped: wider than the port
      cap, no matching depth, a non-positive depth, a non-positive chain, or more than 16 blocks in
      series. */
  function CandidateAt(circuitId: int, mem: Memory, groupId: int, cfg: PhysConfig, w: int): Option<RamMapping>
    requires w >= 1
  {
    if w > EffectiveMaxWidth(mem.mode, cfg) then None
    else
      var depth := PhysDepthFor(cfg, w);
      if depth.None? || depth.value <= 0 then None
      else
        var p := CeilQuot(mem.width, w);
        var s := CeilQuot(mem.depth, depth.value);
        if s <= 0 || p <= 0 || s > 16 then None
        else Some(Build(circuitId, mem, groupId, cfg, w, depth.value, s, p))
  }

  /** A candidate paired with its cost; a skipped width stays absent. */
  function Score(m: Option<RamMapping>, cfg: PhysConfig, cost: CostFn): Option<(RamMapping, real)>
  {
    match m
    case None => None
    case Some(x) => Some((x, cost(x, cfg)))
  }

  /** The scored candidates in enumeration order. */
  function Scores(circuitId: int, mem: Memory, groupId: int, cfg: PhysConfig, cost: CostFn, ws: seq<int>)
    : seq<Option<(RamMapping, real)>>
    requires forall k :: 0 <= k < |ws| ==> ws[k] >= 1
  {
    seq(|ws|, k requires 0 <= k < |ws| => Score(CandidateAt(circuitId, mem, groupId, cfg, ws[k]), cfg, cost))
  }

  /** What the enumerator returns: None when rejected, else the first cheapest candidate. */
  function BestMapping(circuitId: int, mem: Memory, groupId: int, cfg: PhysConfig, cost: CostFn)
    : Option<(RamMapping, real)>
  {
    if Rejected(mem.mode, cfg) then None
    else
      var ws := WidthCandidates(cfg, EffectiveMaxWidth(mem.mode, cfg));
      FirstMin(Scores(circuitId, mem, groupId, cfg, cost, ws))
  }

  /** The shape invariant of every mapping the enumerator produces for `mem` on `cfg`. */
  predicate ShapeOK(m: RamMapping, circuitId: int, mem: Memory, groupId: int, cfg: PhysConfig)
  {
    // identity and request copied from the inputs
    m.circuitId == circuitId && m.logicalRamId == mem.ramId && m.groupId == groupId &&
    m.mode == mem.mode && m.logicalWidth == mem.width && m.logicalDepth == mem.depth &&
    m.physType == cfg.physType &&
    // the chain: at most 16 blocks deep, blocks = series * parallel
    1 <= m.series <= 16 && m.parallel >= 1 && m.physBlocks == m.series * m.parallel &&
    // capacity covers demand, and no more blocks than needed for a positive demand
    m.parallel * m.physWidth >= mem.width && m.series * m.physDepth >= mem.depth &&
    (mem.width > 0 ==> (m.parallel - 1) * m.physWidth < mem.width) &&
    (mem.depth > 0 ==> (m.series - 1) * m.physDepth < mem.depth) &&
    // the block's shape
    1 <= m.physWidth <= EffectiveMaxWidth(mem.mode, cfg) && m.physDepth >= 1 &&
    (if cfg.physType == Lutram
     then (m.physWidth == 10 && m.physDepth == 64) || (m.physWidth == 20 && m.physDepth == 32)
     else m.physWidth * m.physDepth == cfg.bits) &&
    // overhead and port legality
    m.extraLuts == ExtraLuts(m.series, mem.width, mem.mode) &&
    (mem.mode == TrueDualPort ==> cfg.maxWidthTdp > 0)
  }

  /** Every candidate the enumerator builds satisfies the shape invariant. */
  lemma CandidateShape(circuitId: int, mem: Memory, groupId: int, cfg: PhysConfig, w: int)
    requires w >= 1 && !Rejected(mem.mode, cfg)
    requires CandidateAt(circuitId, mem, groupId, cfg, w).Some?
    ensures ShapeOK(CandidateAt(circuitId, mem, groupId, cfg, w).value, circuitId, mem, groupId, cfg)
  {
    var m := CandidateAt(circuitId, mem, groupId, cfg, w).value;
    CeilQuotCovers(mem.width, w);
    CeilQuotCovers(mem.depth, m.physDepth);
    if cfg.physType != Lutram {
      QuotRem(cfg.bits, w);
    }
  }

  /** The block-RAM width candidates are exactly the powers of two 1, 2, 4, ... up to the cap. */
  lemma WidthCandidatesArePowersOfTwo(cfg: PhysConfig, maxWidth: int)
    requires cfg.physType != Lutram
    ensures var ws := WidthCandidates(cfg, maxWidth);
            (forall k :: 0 <= k < |ws| ==> ws[k] == Pow2(k)) && Pow2(|ws|) > maxWidth
  {
    PowersFromPow2(0, maxWidth);
  }

  lemma {:induction false} PowersFromPow2(i: nat, maxWidth: int)
    ensures var ws := PowersFrom(Pow2(i), maxWidth);
            (forall k :: 0 <= k < |ws| ==> ws[k] == Pow2(i + k)) && Pow2(i + |ws|) > maxWidth
    decreases maxWidth - Pow2(i)
  {
    var ws := PowersFrom(Pow2(i), maxWidth);
    if Pow2(i) <= maxWidth {
      assert Pow2(i + 1) == 2 * Pow2(i);
      PowersFromPow2(i + 1, maxWidth);
      var rest := PowersFrom(Pow2(i + 1), maxWidth);
      assert ws == [Pow2(i)] + rest;
      forall k | 0 <= k < |ws|
        ensures ws[k] == Pow2(i + k)
      {
        if k > 0 {
          assert ws[k] == rest[k - 1];
        }
      }
    }
  }

  /** The enumerator finds nothing exactly when the memory is rejected up front or every width is
      skipped. */
  lemma BestMappingNone(circuitId: int, mem: Memory, groupId: int, cfg: PhysConfig, cost: CostFn)
    ensures var ws := WidthCandidates(cfg, EffectiveMaxWidth(mem.mode, cfg));
            (forall k :: 0 <= k < |ws| ==> ws[k] >= 1) &&
            (BestMapping(circuitId, mem, groupId, cfg, cost).None? <==>
              Rejected(mem.mode, cfg) ||
              forall k :: 0 <= k < |ws| ==> CandidateAt(circuitId, mem, groupId, cfg, ws[k]).None?)
  {
    var ws := WidthCandidates(cfg, EffectiveMaxWidth(mem.mode, cfg));
    assert forall k :: 0 <= k < |ws| ==> ws[k] >= 1;
    if !Rejected(mem.mode, cfg) {
      var xs := Scores(circuitId, mem, groupId, cfg, cost, ws);
      FirstMinNone(xs);
      assert forall k :: 0 <= k < |ws| ==>
        (xs[k].None? <==> CandidateAt(circuitId, mem, groupId, cfg, ws[k]).None?);
    }
  }

  /** A block RAM never rejects a memory for its width: with one-bit-wide blocks, any memory that is
      not true dual port, of positive width and of positive depth at most 16 blocks deep, has a
      mapping, however far its width exceeds the resource's widest port. */
  lemma BlockRamWidthUnbounded(circuitId: int, mem: Memory, groupId: int, cfg: PhysConfig, cost: CostFn)
    requires cfg.physType != Lutram && cfg.bits >= 1 && cfg.maxWidthNonTdp >= 1
    requires mem.mode != TrueDualPort && mem.width >= 1 && 1 <= mem.depth <= 16 * cfg.bits
    ensures BestMapping(circuitId, mem, groupId, cfg, cost).Some?
  {
    var ws := WidthCandidates(cfg, EffectiveMaxWidth(mem.mode, cfg));
    WidthCandidatesArePowersOfTwo(cfg, EffectiveMaxWidth(mem.mode, cfg));
    assert |ws| > 0 && ws[0] == 1;
    OneBitWideCandidate(circuitId, mem, groupId, cfg);
    BestMappingNone(circuitId, mem, groupId, cfg, cost);
  }

  /** One-bit-wide blocks hold a whole block's bits in depth, so they realise any such memory. */
  lemma OneBitWideCandidate(circuitId: int, mem: Memory, groupId: int, cfg: PhysConfig)
    requires cfg.physType != Lutram && cfg.bits >= 1 && cfg.maxWidthNonTdp >= 1
    requires mem.mode != TrueDualPort && mem.width >= 1 && 1 <= mem.depth <= 16 * cfg.bits
    ensures CandidateAt(circuitId, mem, groupId, cfg, 1).Some?
  {
    QuotRem(cfg.bits, 1);
    assert PhysDepthFor(cfg, 1) == Some(cfg.bits);
    CeilQuotCovers(mem.width, 1);
    CeilQuotCovers(mem.depth, cfg.bits);
    MulCancel(CeilQuot(mem.depth, cfg.bits) - 1, 16, cfg.bits);
  }

  /** Cancelling a positive factor from a strict inequality. */
  lemma MulCancel(x: int, y: int, b: int)
    requires b > 0 && x * b < y * b
    ensures x < y
  {
    assert (y - x) * b > 0;
  }

  /** A found mapping satisfies the shape invariant and comes with its own cost. */
  lemma BestMappingShape(circuitId: int, mem: Memory, groupId: int, cfg: PhysConfig, cost: CostFn)
    requires BestMapping(circuitId, mem, groupId, cfg, cost).Some?
    ensures var r := BestMapping(circuitId, mem, groupId, cfg, cost).value;
            !Rejected(mem.mode, cfg) && ShapeOK(r.0, circuitId, mem, groupId, cfg) && r.1 == cost(r.0, cfg)
  {
    var k, ws := BestMappingIndex(circuitId, mem, groupId, cfg, cost);
    CandidateShape(circuitId, mem, groupId, cfg, ws[k]);
  }

  /** A found mapping is the candidate of some width in the list: no candidate is cheaper and every
      candidate of an earlier width is strictly dearer, so ties go to the first width enumerated. */
  lemma BestMappingIsEarliestCheapest(circuitId: int, mem: Memory, groupId: int, cfg: PhysConfig, cost: CostFn)
    requires BestMapping(circuitId, mem, groupId, cfg, cost).Some?
    ensures var ws := WidthCandidates(cfg, EffectiveMaxWidth(mem.mode, cfg));
            var r := BestMapping(circuitId, mem, groupId, cfg, cost).value;
            (forall k :: 0 <= k < |ws| ==> ws[k] >= 1) &&
            exists k :: 0 <= k < |ws| && CandidateAt(circuitId, mem, groupId, cfg, ws[k]) == Some(r.0) &&
              (forall j :: 0 <= j < |ws| && CandidateAt(circuitId, mem, groupId, cfg, ws[j]).Some? ==>
                 r.1 <= cost(CandidateAt(circuitId, mem, groupId, cfg, ws[j]).value, cfg)) &&
              (forall j :: 0 <= j < k && CandidateAt(circuitId, mem, groupId, cfg, ws[j]).Some? ==>
                 r.1 < cost(CandidateAt(circuitId, mem, groupId, cfg, ws[j]).value, cfg))
  {
    var k, ws := BestMappingIndex(circuitId, mem, groupId, cfg, cost);
  }

  /** `m` is a candidate the enumerator builds for `mem` on `cfg`: the resource accepts the memory
      and some enumerated width yields `m`. */
  predicate IsCandidate(m: RamMapping, circuitId: int, mem: Memory, groupId: int, cfg: PhysConfig)
  {
    !Rejected(mem.mode, cfg) &&
    exists k :: 0 <= k < |WidthCandidates(cfg, EffectiveMaxWidth(mem.mode, cfg))| &&
      CandidateAt(circuitId, mem, groupId, cfg, WidthCandidates(cfg, EffectiveMaxWidth(mem.mode, cfg))[k]) == Some(m)
  }

  /** When the resource offers a candidate `m'`, the enumerator finds a candidate, reports its true
      cost, and that cost is no greater than `m'`'s. */
  lemma BestMappingBeatsCandidate(circuitId: int, mem: Memory, groupId: int, cfg: PhysConfig, cost: CostFn,
                                  m': RamMapping)
    requires IsCandidate(m', circuitId, mem, groupId, cfg)
    ensures var r := BestMapping(circuitId, mem, groupId, cfg, cost);
            r.Some? && IsCandidate(r.value.0, circuitId, mem, groupId, cfg) &&
            r.value.1 == cost(r.value.0, cfg) && r.value.1 <= cost(m', cfg)
  {
    BestMappingNone(circuitId, mem, groupId, cfg, cost);
    var k, ws := BestMappingIndex(circuitId, mem, groupId, cfg, cost);
  }

  /** The position of the found mapping in the width list, with the selection facts at that position. */
  lemma BestMappingIndex(circuitId: int, mem: Memory, groupId: int, cfg: PhysConfig, cost: CostFn)
    returns (k: int, ws: seq<int>)
    requires BestMapping(circuitId, mem, groupId, cfg, cost).Some?
    ensures ws == WidthCandidates(cfg, EffectiveMaxWidth(mem.mode, cfg))
    ensures !Rejected(mem.mode, cfg)
    ensures (forall j :: 0 <= j < |ws| ==> ws[j] >= 1) && 0 <= k < |ws|
    ensures CandidateAt(circuitId, mem, groupId, cfg, ws[k]) == Some(BestMapping(circuitId, mem, groupId, cfg, cost).value.0)
    ensures BestMapping(circuitId, mem, groupId, cfg, cost).value.1 == cost(BestMapping(circuitId, mem, groupId, cfg, cost).value.0, cfg)
    ensures forall j :: 0 <= j < |ws| && CandidateAt(circuitId, mem, groupId, cfg, ws[j]).Some? ==>
              BestMapping(circuitId, mem, groupId, cfg, cost).value.1 <= cost(CandidateAt(circuitId, mem, groupId, cfg, ws[j]).value, cfg)
    ensures forall j :: 0 <= j < k && CandidateAt(circuitId, mem, groupId, cfg, ws[j]).Some? ==>
              BestMapping(circuitId, mem, groupId, cfg, cost).value.1 < cost(CandidateAt(circuitId, mem, groupId, cfg, ws[j]).value, cfg)
  {
    ws := WidthCandidates(cfg, EffectiveMaxWidth(mem.mode, cfg));
    assert forall j :: 0 <= j < |ws| ==> ws[j] >= 1;
    var xs := Scores(circuitId, mem, groupId, cfg, cost, ws);
    FirstMinIsEarliestMinimum(xs);
    k :| 0 <= k < |xs| && xs[k] == FirstMin(xs) && EarliestMinimumAt(xs, k);
    var r := FirstMin(xs).value;
    forall j | 0 <= j < |ws| && CandidateAt(circuitId, mem, groupId, cfg, ws[j]).Some?
      ensures r.1 <= cost(CandidateAt(circuitId, mem, groupId, cfg, ws[j]).value, cfg)
      ensures j < k ==> r.1 < cost(CandidateAt(circuitId, mem, groupId, cfg, ws[j]).value, cfg)
    {
      var c := CandidateAt(circuitId, mem, groupId, cfg, ws[j]);
      assert xs[j] == Score(c, cfg, cost);
      assert xs[j].value.1 == cost(c.value, cfg);
    }
  }

  /** The width list of the enumerator: the two LUTRAM widths, or the doubling loop 1, 2, 4, ...
      while the width does not exceed the cap. */
  method BuildWidthCandidates(cfg: PhysConfig, maxWidth: int) returns (widths: seq<int>)
    ensures widths == WidthCandidates(cfg, maxWidth)
  {
    if cfg.physType == Lutram {
      widths := [10, 20];
    } else {
      widths := [];
      var w := 1;
      while w <= maxWidth
        invariant w >= 1
        invariant widths + PowersFrom(w, maxWidth) == PowersFrom(1, maxWidth)
        decreases maxWidth - w
      {
        widths := widths + [w];
        w := w * 2;
      }
    }
  }

  /** The body of the enumerator's scan for one width `wPhys`: derive depth, parallel and series
      counts and the extra LUTs, or skip the width (the source's `continue`s, here None). */
  method CandidateForWidth(circuitId: int, mem: Memory, groupId: int, cfg: PhysConfig, maxWidth: int, wPhys: int)
    returns (candidate: Option<RamMapping>)
    requires wPhys >= 1 && maxWidth == EffectiveMaxWidth(mem.mode, cfg)
    requires cfg.physType == Lutram ==> wPhys == 10 || wPhys == 20
    ensures candidate == CandidateAt(circuitId, mem, groupId, cfg, wPhys)
  {
    if wPhys > maxWidth {
      return None;
    }
    var dPhys: int;
    if cfg.physType == Lutram {
      dPhys := if wPhys == 10 then 64 else 32;
    } else {
      if Rem(cfg.bits, wPhys) != 0 {
        return None;
      }
      dPhys := Quot(cfg.bits, wPhys);
    }
    assert PhysDepthFor(cfg, wPhys) == Some(dPhys);
    if dPhys <= 0 {
      return None;
    }
    var p := Quot(mem.width, wPhys);
    if Rem(mem.width, wPhys) != 0 {
      p := p + 1;
    }
    var s := Quot(mem.depth, dPhys);
    if Rem(mem.depth, dPhys) != 0 {
      s := s + 1;
    }
    assert p == CeilQuot(mem.width, wPhys) && s == CeilQuot(mem.depth, dPhys);
    if s <= 0 || p <= 0 {
      return None;
    }
    if s > 16 {
      return None;
    }
    var muxLuts := MuxLuts(s, mem.width);
    var extraLuts := DecoderLuts(s) + muxLuts;
    if s > 1 && mem.mode == TrueDualPort {
      extraLuts := extraLuts * 2;
    }
    candidate := Some(RamMapping(circuitId, mem.ramId, extraLuts, mem.width, mem.depth, groupId,
                                 s, p, cfg.physType, mem.mode, wPhys, dPhys, s * p));
  }

  /** The enumerator: build the width list, then scan it keeping the first cheapest candidate. */
  method BestMappingForPhysType(circuitId: int, mem: Memory, groupId: int, cfg: PhysConfig, cost: CostFn)
    returns (best: Option<(RamMapping, real)>)
    ensures best == BestMapping(circuitId, mem, groupId, cfg, cost)
  {
    if mem.mode == TrueDualPort && cfg.maxWidthTdp == 0 {
      return None;
    }
    var maxWidth := if mem.mode == TrueDualPort then cfg.maxWidthTdp else cfg.maxWidthNonTdp;
    if maxWidth <= 0 {
      return None;
    }
    var widths := BuildWidthCandidates(cfg, maxWidth);
    ghost var scores := Scores(circuitId, mem, groupId, cfg, cost, widths);
    best := None;
    for k := 0 to |widths|
      invariant best == FirstMin(scores[..k])
    {
      assert scores[..k + 1][..k] == scores[..k];
      var candidate := CandidateForWidth(circuitId, mem, groupId, cfg, maxWidth, widths[k]);
      assert scores[k] == Score(candidate, cfg, cost);
      if candidate.Some? {
        var c := cost(candidate.value, cfg);
        if best.None? || c < best.value.1 {
          best := Some((candidate.value, c));
        }
      }
    }
    assert scores[..|widths|] == scores;
  }
}
