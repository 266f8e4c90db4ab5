/** What a run guarantees: it fails exactly when some memory cannot be mapped, naming the first
    such memory; otherwise every memory gets the chooser's mapping with its position as group id,
    and the totals count exactly the blocks the final mappings occupy, less one per shared pair. */
module DriverProps {
  import opened Arith
  import opened RamTypes
  import opened Overhead
  import opened Enumerator
  import opened Chooser
  import opened Sharing
  import opened SharingProps
  import opened Driver

  /** The mapping phase in terms of the chooser on each slot: it succeeds exactly when every slot
      can be mapped, with slot `k`'s mapping at position `k`; otherwise it fails with the error of
      the first slot that cannot be mapped. */
  lemma {:induction false} MapAllPerSlot(slots: seq<Slot>, arch: Arch, cost: CostFn)
    ensures MapAll(slots, arch, cost).Ok? <==> forall k :: 0 <= k < |slots| ==> ChooseAt(slots, k, arch, cost).Ok?
    ensures MapAll(slots, arch, cost).Ok? ==>
              forall k :: 0 <= k < |slots| ==> MapAll(slots, arch, cost).value[k] == ChooseAt(slots, k, arch, cost).value
    ensures MapAll(slots, arch, cost).Err? ==>
              exists k :: 0 <= k < |slots| && ChooseAt(slots, k, arch, cost) == Err(MapAll(slots, arch, cost).error) &&
                          forall k' :: 0 <= k' < k ==> ChooseAt(slots, k', arch, cost).Ok?
  {
    if slots != [] {
      var n := |slots| - 1;
      var front := slots[..n];
      MapAllPerSlot(front, arch, cost);
      forall k | 0 <= k < n
        ensures ChooseAt(front, k, arch, cost) == ChooseAt(slots, k, arch, cost)
      {
        assert front[k] == slots[k];
      }
      if MapAll(front, arch, cost).Err? {
        var k :| 0 <= k < n && ChooseAt(front, k, arch, cost) == Err(MapAll(front, arch, cost).error) &&
                 forall k' :: 0 <= k' < k ==> ChooseAt(front, k', arch, cost).Ok?;
        assert ChooseAt(slots, k, arch, cost) == Err(MapAll(slots, arch, cost).error);
      } else if ChooseAt(slots, n, arch, cost).Err? {
        assert forall k' :: 0 <= k' < n ==> ChooseAt(slots, k', arch, cost).Ok?;
      }
    }
  }

  /** A run fails exactly when some memory cannot be mapped. */
  lemma AssignRamFailsIffUnmappable(circuits: seq<Circuit>, arch: Arch, cost: CostFn)
    ensures AssignRamSpec(circuits, arch, cost).Err? <==>
            exists k :: 0 <= k < |Slots(circuits)| && ChooseAt(Slots(circuits), k, arch, cost).Err?
  {
    var slots := Slots(circuits);
    MapAllPerSlot(slots, arch, cost);
    if MapAll(slots, arch, cost).Err? {
      var k :| 0 <= k < |slots| && ChooseAt(slots, k, arch, cost) == Err(MapAll(slots, arch, cost).error) &&
               forall k' :: 0 <= k' < k ==> ChooseAt(slots, k', arch, cost).Ok?;
      assert ChooseAt(slots, k, arch, cost).Err? && AssignRamSpec(circuits, arch, cost).Err?;
      assert exists k :: 0 <= k < |Slots(circuits)| && ChooseAt(Slots(circuits), k, arch, cost).Err?;
    } else {
      assert AssignRamSpec(circuits, arch, cost).Ok?;
    }
  }

  /** A failed run names the first memory (in circuit order, then memory order) that no enabled
      resource can realise, and its circuit. */
  lemma AssignRamReportsFirstUnmappable(circuits: seq<Circuit>, arch: Arch, cost: CostFn)
    requires AssignRamSpec(circuits, arch, cost).Err?
    ensures exists k :: 0 <= k < |Slots(circuits)| && FirstUnmappable(Slots(circuits), k, arch, cost) &&
                        AssignRamSpec(circuits, arch, cost).error ==
                          NoLegalMapping(Slots(circuits)[k].mem.ramId, Slots(circuits)[k].circuitId)
  {
    var slots := Slots(circuits);
    MapAllPerSlot(slots, arch, cost);
    var r := AssignRamSpec(circuits, arch, cost);
    assert MapAll(slots, arch, cost).Err? && r.error == MapAll(slots, arch, cost).error;
    var k :| 0 <= k < |slots| && ChooseAt(slots, k, arch, cost) == Err(MapAll(slots, arch, cost).error) &&
             forall k' :: 0 <= k' < k ==> ChooseAt(slots, k', arch, cost).Ok?;
    assert r.error == ChooseAt(slots, k, arch, cost).error;
    ChooseFailsIffNoTypeFits(slots[k].circuitId, slots[k].mem, k, arch.hasLutram, arch.hasM8k, arch.hasM128k,
                             M8kConfig(arch), M128kConfig(arch), cost);
    assert FirstUnmappable(slots, k, arch, cost);
  }

  /** Slot `k` is the first whose memory no enabled resource can realise: every enabled resource's
      enumerator rejects it, and every earlier slot is mapped. */
  predicate FirstUnmappable(slots: seq<Slot>, k: int, arch: Arch, cost: CostFn)
    requires 0 <= k < |slots|
  {
    (forall t :: 0 <= t < 3 && TypeEnabled(arch.hasLutram, arch.hasM8k, arch.hasM128k)[t] ==>
       BestMapping(slots[k].circuitId, slots[k].mem, k, TypeConfigs(M8kConfig(arch), M128kConfig(arch))[t], cost).None?) &&
    forall k' :: 0 <= k' < k ==> ChooseAt(slots, k', arch, cost).Ok?
  }

  /** Before sharing, slot `k`'s mapping belongs to the slot's circuit and memory and carries
      group id `k`, on a resource the architecture enables. */
  lemma MappedInOrder(slots: seq<Slot>, arch: Arch, cost: CostFn)
    requires MapAll(slots, arch, cost).Ok?
    ensures var ms := MapAll(slots, arch, cost).value;
            |ms| == |slots| &&
            forall k :: 0 <= k < |slots| ==>
              ms[k].circuitId == slots[k].circuitId && ms[k].logicalRamId == slots[k].mem.ramId &&
              ms[k].groupId == k && ms[k].mode == slots[k].mem.mode &&
              (ms[k].physType == Lutram ==> arch.hasLutram) &&
              (ms[k].physType == Ram8K ==> arch.hasM8k) &&
              (ms[k].physType == Ram128K ==> arch.hasM128k)
  {
    var ms := MapAll(slots, arch, cost).value;
    MapAllPerSlot(slots, arch, cost);
    forall k | 0 <= k < |slots|
      ensures ms[k].circuitId == slots[k].circuitId && ms[k].logicalRamId == slots[k].mem.ramId &&
              ms[k].groupId == k && ms[k].mode == slots[k].mem.mode &&
              (ms[k].physType == Lutram ==> arch.hasLutram) &&
              (ms[k].physType == Ram8K ==> arch.hasM8k) &&
              (ms[k].physType == Ram128K ==> arch.hasM128k)
    {
      assert ChooseAt(slots, k, arch, cost).Ok?;
      ChosenMappingShape(slots[k].circuitId, slots[k].mem, k, arch.hasLutram, arch.hasM8k, arch.hasM128k,
                         M8kConfig(arch), M128kConfig(arch), cost);
    }
  }

  /** Totals depend only on fields the sharing pass does not touch. */
  lemma {:induction false} SumsUnchanged(ms: seq<RamMapping>, ms': seq<RamMapping>)
    requires |ms'| == |ms| && forall k :: 0 <= k < |ms| ==> SameExceptModeGroup(ms[k], ms'[k])
    ensures SumExtra(ms') == SumExtra(ms)
    ensures forall t :: SumBlocks(ms', t) == SumBlocks(ms, t)
  {
    if ms != [] {
      var n := |ms| - 1;
      assert SameExceptModeGroup(ms[n], ms'[n]);
      SumsUnchanged(ms[..n], ms'[..n]);
    }
  }

  /** A resource no mapping uses contributes no blocks. */
  lemma {:induction false} SumBlocksUnused(ms: seq<RamMapping>, t: PhysType)
    requires forall k :: 0 <= k < |ms| ==> ms[k].physType != t
    ensures SumBlocks(ms, t) == 0
  {
    if ms != [] {
      SumBlocksUnused(ms[..|ms| - 1], t);
    }
  }

  /** The pass for an optional resource keeps the totals' fields and saves one block per merge. */
  lemma ShareIfPresentEffect(ms: seq<RamMapping>, cfg: Option<PhysConfig>, total: int)
    ensures var (ms', total') := ShareIfPresent(ms, cfg, total);
            |ms'| == |ms| && SumExtra(ms') == SumExtra(ms) &&
            (forall t :: SumBlocks(ms', t) == SumBlocks(ms, t)) &&
            (cfg.None? ==> ms' == ms && total' == total) &&
            (cfg.Some? ==> total' == total - |SharePass(ms, cfg.value, total).merges|)
  {
    if cfg.Some? {
      ShareTypeFrame(ms, cfg.value, total);
      ShareTypeMerges(ms, cfg.value, total);
      SumsUnchanged(ms, SharePass(ms, cfg.value, total).ms);
    }
  }

  /** The totals of a successful run: one final mapping per memory, each differing from the
      mapping phase's result for that memory at most in mode and group id; the extra-LUT and LUTRAM
      totals are those of the final mappings; each block RAM total is the blocks the final mappings
      use, less one per pair its sharing pass merged; a resource absent from the architecture is
      unused. */
  lemma AssignRamTotals(circuits: seq<Circuit>, arch: Arch, cost: CostFn)
    requires AssignRamSpec(circuits, arch, cost).Ok?
    ensures var slots := Slots(circuits);
            var res := AssignRamSpec(circuits, arch, cost).value;
            var ms := MapAll(slots, arch, cost).value;
            var ms8 := ShareIfPresent(ms, OptionalConfig(arch.hasM8k, M8kConfig(arch)), SumBlocks(ms, Ram8K)).0;
            |res.mappings| == |slots| &&
            (forall k :: 0 <= k < |slots| ==>
               SameExceptModeGroup(ms[k], res.mappings[k])) &&
            res.extraLuts == SumExtra(res.mappings) &&
            res.lutramBlocks == SumBlocks(res.mappings, Lutram) &&
            res.m8kBlocks == SumBlocks(res.mappings, Ram8K) -
              (if arch.hasM8k then |SharePass(ms, M8kConfig(arch), SumBlocks(ms, Ram8K)).merges| else 0) &&
            res.m128kBlocks == SumBlocks(res.mappings, Ram128K) -
              (if arch.hasM128k then |SharePass(ms8, M128kConfig(arch), SumBlocks(ms, Ram128K)).merges| else 0) &&
            (!arch.hasLutram ==> res.lutramBlocks == 0) &&
            (!arch.hasM8k ==> res.m8kBlocks == 0) &&
            (!arch.hasM128k ==> res.m128kBlocks == 0)
  {
    var slots := Slots(circuits);
    var ms := MapAll(slots, arch, cost).value;
    var cfg8 := OptionalConfig(arch.hasM8k, M8kConfig(arch));
    var cfg128 := OptionalConfig(arch.hasM128k, M128kConfig(arch));
    var (ms8, b8) := ShareIfPresent(ms, cfg8, SumBlocks(ms, Ram8K));
    var (ms128, b128) := ShareIfPresent(ms8, cfg128, SumBlocks(ms, Ram128K));
    ShareIfPresentEffect(ms, cfg8, SumBlocks(ms, Ram8K));
    ShareIfPresentEffect(ms8, cfg128, SumBlocks(ms, Ram128K));
    MapAllPerSlot(slots, arch, cost);
    MappedInOrder(slots, arch, cost);
    if cfg8.Some? {
      ShareTypeFrame(ms, cfg8.value, SumBlocks(ms, Ram8K));
    }
    if cfg128.Some? {
      ShareTypeFrame(ms8, cfg128.value, SumBlocks(ms, Ram128K));
    }
    assert forall k :: 0 <= k < |ms| ==> SameExceptModeGroup(ms[k], ms8[k]);
    assert forall k :: 0 <= k < |ms| ==> SameExceptModeGroup(ms8[k], ms128[k]);
    if !arch.hasLutram {
      SumBlocksUnused(ms, Lutram);
    }
    if !arch.hasM8k {
      SumBlocksUnused(ms, Ram8K);
    }
    if !arch.hasM128k {
      SumBlocksUnused(ms, Ram128K);
    }
  }

  /** Group ids after a run: two final mappings share a group id exactly when the 8K pass or the
      128K pass merged them, and such a pair is true dual port in one circuit, on one resource, with
      one physical shape. */
  lemma AssignRamGroupsAreMerges(circuits: seq<Circuit>, arch: Arch, cost: CostFn)
    requires AssignRamSpec(circuits, arch, cost).Ok?
    ensures var ms := MapAll(Slots(circuits), arch, cost).value;
            var ms8 := ShareIfPresent(ms, OptionalConfig(arch.hasM8k, M8kConfig(arch)), SumBlocks(ms, Ram8K)).0;
            var r8 := SharePass(ms, M8kConfig(arch), SumBlocks(ms, Ram8K));
            var r128 := SharePass(ms8, M128kConfig(arch), SumBlocks(ms, Ram128K));
            var fin := AssignRamSpec(circuits, arch, cost).value.mappings;
            |fin| == |ms| &&
            forall a, b :: 0 <= a < b < |fin| ==>
              (fin[a].groupId == fin[b].groupId <==>
                 (arch.hasM8k && Merged(r8.merges, a, b)) || (arch.hasM128k && Merged(r128.merges, a, b))) &&
              (fin[a].groupId == fin[b].groupId ==> SharedBlock(fin[a], fin[b]))
  {
    var slots := Slots(circuits);
    var ms := MapAll(slots, arch, cost).value;
    var t8, t128 := SumBlocks(ms, Ram8K), SumBlocks(ms, Ram128K);
    var ms8 := ShareIfPresent(ms, OptionalConfig(arch.hasM8k, M8kConfig(arch)), t8).0;
    MappedInOrder(slots, arch, cost);
    EightKGroups(ms, arch);
    EightKPassKeeps128k(ms, arch);
    FinalMappings(circuits, arch, cost);
    OneTwentyEightKGroups(ms, ms8, arch, t128, SharePass(ms, M8kConfig(arch), t8).merges);
  }

  /** A successful run's mappings are the 128K stage's output on the 8K stage's output. */
  lemma FinalMappings(circuits: seq<Circuit>, arch: Arch, cost: CostFn)
    requires AssignRamSpec(circuits, arch, cost).Ok?
    ensures var ms := MapAll(Slots(circuits), arch, cost).value;
            var ms8 := ShareIfPresent(ms, OptionalConfig(arch.hasM8k, M8kConfig(arch)), SumBlocks(ms, Ram8K)).0;
            MapAll(Slots(circuits), arch, cost).Ok? &&
            AssignRamSpec(circuits, arch, cost).value.mappings ==
              ShareIfPresent(ms8, OptionalConfig(arch.hasM128k, M128kConfig(arch)), SumBlocks(ms, Ram128K)).0
  {
  }

  /** The 128K stage of `AssignRamGroupsAreMerges`, on the 8K stage's output `ms8`: the 128K
      candidates still carry their own positions as group ids, and no other mapping carries one of
      those, so the 128K pass adds exactly its own merges to the groups. */
  lemma OneTwentyEightKGroups(ms: seq<RamMapping>, ms8: seq<RamMapping>, arch: Arch, t128: int, merges8: seq<Merge>)
    requires |ms8| == |ms| && forall k :: 0 <= k < |ms| ==> ms[k].groupId == k
    requires forall k :: 0 <= k < |ms| && ms8[k].physType == Ram128K ==> ms8[k] == ms[k]
    requires forall a, b :: 0 <= a < b < |ms| ==>
               (ms8[a].groupId == ms8[b].groupId <==> arch.hasM8k && Merged(merges8, a, b)) &&
               (ms8[a].groupId == ms8[b].groupId ==> SharedBlock(ms8[a], ms8[b]) && ms8[a].physType == Ram8K)
    ensures var fin := ShareIfPresent(ms8, OptionalConfig(arch.hasM128k, M128kConfig(arch)), t128).0;
            var r128 := SharePass(ms8, M128kConfig(arch), t128);
            |fin| == |ms| &&
            forall a, b :: 0 <= a < b < |fin| ==>
              (fin[a].groupId == fin[b].groupId <==>
                 (arch.hasM8k && Merged(merges8, a, b)) || (arch.hasM128k && Merged(r128.merges, a, b))) &&
              (fin[a].groupId == fin[b].groupId ==> SharedBlock(fin[a], fin[b]))
  {
    var cfg128 := M128kConfig(arch);
    if arch.hasM128k {
      forall k, k' | 0 <= k < |ms8| && 0 <= k' < |ms8| && k != k' && Eligible(ms8[k], cfg128)
        ensures ms8[k'].groupId != k
      {
        // a pair sharing a group id after the 8K stage is 8K, never a 128K candidate
        assert ms8[k] == ms[k];
      }
      GroupIdsIdentifyMerges(ms8, cfg128, t128);
    }
  }

  /** The 8K stage of `AssignRamGroupsAreMerges`: starting from every mapping in its own group, two
      mappings share a group id after the 8K stage exactly when the 8K pass merged them, and then
      they share one 8K block. */
  lemma EightKGroups(ms: seq<RamMapping>, arch: Arch)
    requires forall k :: 0 <= k < |ms| ==> ms[k].groupId == k
    ensures var ms8 := ShareIfPresent(ms, OptionalConfig(arch.hasM8k, M8kConfig(arch)), SumBlocks(ms, Ram8K)).0;
            var r8 := SharePass(ms, M8kConfig(arch), SumBlocks(ms, Ram8K));
            |ms8| == |ms| &&
            forall a, b :: 0 <= a < b < |ms| ==>
              (ms8[a].groupId == ms8[b].groupId <==> arch.hasM8k && Merged(r8.merges, a, b)) &&
              (ms8[a].groupId == ms8[b].groupId ==> SharedBlock(ms8[a], ms8[b]) && ms8[a].physType == Ram8K)
  {
    if arch.hasM8k {
      GroupIdsIdentifyMerges(ms, M8kConfig(arch), SumBlocks(ms, Ram8K));
    }
  }

  /** The shape of a run's final mapping `k`: sharing keeps the chooser's chain, so the final
      mapping still records memory `k`'s circuit, id, width and depth, is at most 16 blocks deep,
      occupies series × parallel blocks, covers the memory's width and depth, and sits on an enabled
      resource. */
  lemma AssignRamShape(circuits: seq<Circuit>, arch: Arch, cost: CostFn, k: int)
    requires AssignRamSpec(circuits, arch, cost).Ok? && 0 <= k < |Slots(circuits)|
    ensures var fin := AssignRamSpec(circuits, arch, cost).value.mappings;
            var slot := Slots(circuits)[k];
            |fin| == |Slots(circuits)| &&
            fin[k].circuitId == slot.circuitId && fin[k].logicalRamId == slot.mem.ramId &&
            fin[k].logicalWidth == slot.mem.width && fin[k].logicalDepth == slot.mem.depth &&
            1 <= fin[k].series <= 16 && fin[k].parallel >= 1 &&
            fin[k].physBlocks == fin[k].series * fin[k].parallel &&
            fin[k].parallel * fin[k].physWidth >= slot.mem.width &&
            fin[k].series * fin[k].physDepth >= slot.mem.depth &&
            fin[k].extraLuts == ExtraLuts(fin[k].series, slot.mem.width, slot.mem.mode) &&
            (fin[k].physType == Lutram ==> arch.hasLutram) &&
            (fin[k].physType == Ram8K ==> arch.hasM8k) &&
            (fin[k].physType == Ram128K ==> arch.hasM128k)
  {
    var slots := Slots(circuits);
    var ms := MapAll(slots, arch, cost).value;
    AssignRamTotals(circuits, arch, cost);
    MapAllPerSlot(slots, arch, cost);
    MappedInOrder(slots, arch, cost);
    assert ChooseAt(slots, k, arch, cost).Ok?;
    ChosenMappingShape(slots[k].circuitId, slots[k].mem, k, arch.hasLutram, arch.hasM8k, arch.hasM128k,
                       M8kConfig(arch), M128kConfig(arch), cost);
    // the final mapping differs from `ms[k]` at most in mode and group id
    assert SameExceptModeGroup(ms[k], AssignRamSpec(circuits, arch, cost).value.mappings[k]);
  }

  /** A memory mapped onto a block RAM satisfies the shape invariant of that block RAM's
      configuration, for its own slot's circuit, memory and group id. */
  lemma MappedShape(slots: seq<Slot>, arch: Arch, cost: CostFn, k: int)
    requires MapAll(slots, arch, cost).Ok? && 0 <= k < |slots|
    requires MapAll(slots, arch, cost).value[k].physType != Lutram
    ensures var m := MapAll(slots, arch, cost).value[k];
            ShapeOK(m, slots[k].circuitId, slots[k].mem, k,
                    if m.physType == Ram8K then M8kConfig(arch) else M128kConfig(arch))
  {
    MapAllPerSlot(slots, arch, cost);
    assert ChooseAt(slots, k, arch, cost).Ok?;
    ChosenMappingShape(slots[k].circuitId, slots[k].mem, k, arch.hasLutram, arch.hasM8k, arch.hasM128k,
                       M8kConfig(arch), M128kConfig(arch), cost);
  }

  /** A chain of one block is one block in series and one in parallel. */
  lemma SingleBlockChain(m: RamMapping)
    requires m.series >= 1 && m.parallel >= 1 && m.physBlocks == m.series * m.parallel && m.physBlocks == 1
    ensures m.series == 1 && m.parallel == 1
  {
    MulMono(1, m.parallel, m.series);
  }

  /** When both sides of a merge were shaped by the enumerator for the merging block RAM, together
      they hold at most one block's bits: each is one block of the shared shape, and their depths
      fit the block's depth. (The exact-fill test alone does not give this, since it adds the
      driver's bits.) */
  lemma MergeFitsBlock(ms0: seq<RamMapping>, st: ShareState, g: Merge, cfg: PhysConfig,
                       cL: int, memL: Memory, gL: int, cR: int, memR: Memory, gR: int)
    requires MergeOK(ms0, st, g, cfg) && cfg.physType != Lutram
    requires ShapeOK(ms0[g.left], cL, memL, gL, cfg) && ShapeOK(ms0[g.right], cR, memR, gR, cfg)
    requires memL.depth >= 0 && memR.depth >= 0
    ensures PairFits(ms0, g, cfg.bits)
  {
    var l, r := ms0[g.left], ms0[g.right];
    SingleBlockChain(l);
    SingleBlockChain(r);
    assert l.logicalWidth <= l.physWidth && r.logicalWidth <= l.physWidth;
    assert l.logicalDepth + r.logicalDepth <= l.physDepth;
    TwoFillsBound(l.logicalWidth, l.logicalDepth, r.logicalWidth, r.logicalDepth, l.physWidth, l.physDepth);
  }

  /** Merge `g` joins two mappings of `ms` that together hold at most `bits` bits. */
  predicate PairFits(ms: seq<RamMapping>, g: Merge, bits: int)
  {
    g.left < g.right < |ms| && LogicalBits(ms[g.left]) + LogicalBits(ms[g.right]) <= bits
  }

  /** Two regions no wider than `w` whose depths add up to at most `d` cover at most `w * d` cells. */
  lemma TwoFillsBound(wl: int, dl: int, wr: int, dr: int, w: int, d: int)
    requires wl <= w && wr <= w && dl >= 0 && dr >= 0 && dl + dr <= d && w >= 1
    ensures wl * dl + wr * dr <= w * d
  {
    MulMono(wl, w, dl);
    MulMono(wr, w, dr);
    MulMono(dl + dr, d, w);
    assert w * dl + w * dr == (dl + dr) * w;
  }

  /** In a successful run over memories of non-negative depth, every pair the 8K pass merges and
      every pair the 128K pass merges holds at most one block's bits of that block RAM. */
  lemma AssignRamMergesFitBlock(circuits: seq<Circuit>, arch: Arch, cost: CostFn)
    requires AssignRamSpec(circuits, arch, cost).Ok?
    requires forall k :: 0 <= k < |Slots(circuits)| ==> Slots(circuits)[k].mem.depth >= 0
    ensures var ms := MapAll(Slots(circuits), arch, cost).value;
            var ms8 := ShareIfPresent(ms, OptionalConfig(arch.hasM8k, M8kConfig(arch)), SumBlocks(ms, Ram8K)).0;
            var r8 := SharePass(ms, M8kConfig(arch), SumBlocks(ms, Ram8K));
            var r128 := SharePass(ms8, M128kConfig(arch), SumBlocks(ms, Ram128K));
            (arch.hasM8k ==> forall q :: 0 <= q < |r8.merges| ==> PairFits(ms, r8.merges[q], M8kConfig(arch).bits)) &&
            (arch.hasM128k ==> forall q :: 0 <= q < |r128.merges| ==> PairFits(ms8, r128.merges[q], M128kConfig(arch).bits))
  {
    var slots := Slots(circuits);
    var ms := MapAll(slots, arch, cost).value;
    var cfg8, cfg128 := M8kConfig(arch), M128kConfig(arch);
    var ms8 := ShareIfPresent(ms, OptionalConfig(arch.hasM8k, cfg8), SumBlocks(ms, Ram8K)).0;
    if arch.hasM8k {
      var r8 := SharePass(ms, cfg8, SumBlocks(ms, Ram8K));
      ShareTypeMerges(ms, cfg8, SumBlocks(ms, Ram8K));
      forall q | 0 <= q < |r8.merges|
        ensures PairFits(ms, r8.merges[q], cfg8.bits)
      {
        var g := r8.merges[q];
        MappedShape(slots, arch, cost, g.left);
        MappedShape(slots, arch, cost, g.right);
        MergeFitsBlock(ms, r8, g, cfg8, slots[g.left].circuitId, slots[g.left].mem, g.left,
                       slots[g.right].circuitId, slots[g.right].mem, g.right);
      }
    }
    if arch.hasM128k {
      AssignRam128kMergesFitBlock(circuits, arch, cost);
    }
  }

  /** The 128K half of `AssignRamMergesFitBlock`: the 8K pass leaves every 128K mapping as the
      mapping phase produced it, so the enumerator's shape still holds for the 128K pass. */
  lemma AssignRam128kMergesFitBlock(circuits: seq<Circuit>, arch: Arch, cost: CostFn)
    requires AssignRamSpec(circuits, arch, cost).Ok? && arch.hasM128k
    requires forall k :: 0 <= k < |Slots(circuits)| ==> Slots(circuits)[k].mem.depth >= 0
    ensures var ms := MapAll(Slots(circuits), arch, cost).value;
            var ms8 := ShareIfPresent(ms, OptionalConfig(arch.hasM8k, M8kConfig(arch)), SumBlocks(ms, Ram8K)).0;
            var r128 := SharePass(ms8, M128kConfig(arch), SumBlocks(ms, Ram128K));
            forall q :: 0 <= q < |r128.merges| ==> PairFits(ms8, r128.merges[q], M128kConfig(arch).bits)
  {
    var slots := Slots(circuits);
    var ms := MapAll(slots, arch, cost).value;
    var ms8 := ShareIfPresent(ms, OptionalConfig(arch.hasM8k, M8kConfig(arch)), SumBlocks(ms, Ram8K)).0;
    var r128 := SharePass(ms8, M128kConfig(arch), SumBlocks(ms, Ram128K));
    EightKPassKeeps128k(ms, arch);
    ShareTypeMerges(ms8, M128kConfig(arch), SumBlocks(ms, Ram128K));
    forall q | 0 <= q < |r128.merges|
      ensures PairFits(ms8, r128.merges[q], M128kConfig(arch).bits)
    {
      Merge128kFits(slots, arch, cost, ms8, r128, r128.merges[q]);
    }
  }

  /** The 8K pass (when present) changes no 128K mapping. */
  lemma EightKPassKeeps128k(ms: seq<RamMapping>, arch: Arch)
    ensures var ms8 := ShareIfPresent(ms, OptionalConfig(arch.hasM8k, M8kConfig(arch)), SumBlocks(ms, Ram8K)).0;
            |ms8| == |ms| && forall k :: 0 <= k < |ms| && ms8[k].physType == Ram128K ==> ms8[k] == ms[k]
  {
    if arch.hasM8k {
      ShareTypeFrame(ms, M8kConfig(arch), SumBlocks(ms, Ram8K));
    }
  }

  /** One merge of the 128K pass, run on mappings whose 128K entries are the mapping phase's. */
  lemma Merge128kFits(slots: seq<Slot>, arch: Arch, cost: CostFn, ms8: seq<RamMapping>, st: ShareState, g: Merge)
    requires MapAll(slots, arch, cost).Ok? && |ms8| == |slots|
    requires forall k :: 0 <= k < |slots| ==> slots[k].mem.depth >= 0
    requires forall k :: 0 <= k < |slots| && ms8[k].physType == Ram128K ==> ms8[k] == MapAll(slots, arch, cost).value[k]
    requires MergeOK(ms8, st, g, M128kConfig(arch))
    ensures PairFits(ms8, g, M128kConfig(arch).bits)
  {
    MappedShape(slots, arch, cost, g.left);
    MappedShape(slots, arch, cost, g.right);
    MergeFitsBlock(ms8, st, g, M128kConfig(arch), slots[g.left].circuitId, slots[g.left].mem, g.left,
                   slots[g.right].circuitId, slots[g.right].mem, g.right);
  }

  /** With a widest 8K port of one bit, the 8K block RAM has no true-dual-port width, so the
      candidate filter does not cap widths; yet its sharing pass still turns two single-port
      mappings into true-dual-port ones. */
  lemma TdpMergeWithoutTdpMode()
    ensures var cfg := M8kConfig(Arch(false, true, false, 8192, 0, 1, 0));
            var m0 := RamMapping(0, 0, 0, 1, 4096, 0, 1, 1, Ram8K, SinglePort, 1, 8192, 1);
            var m1 := RamMapping(0, 1, 0, 1, 4096, 1, 1, 1, Ram8K, SinglePort, 1, 8192, 1);
            var r := SharePass([m0, m1], cfg, 2);
            cfg.maxWidthTdp == 0 &&
            r.ms == [m0.(mode := TrueDualPort), m1.(mode := TrueDualPort, groupId := 0)] && r.blocks == 1
  {
    var cfg := M8kConfig(Arch(false, true, false, 8192, 0, 1, 0));
    assert cfg == PhysConfig(Ram8K, 8192, 1, 0);
    var m0 := RamMapping(0, 0, 0, 1, 4096, 0, 1, 1, Ram8K, SinglePort, 1, 8192, 1);
    var m1 := RamMapping(0, 1, 0, 1, 4096, 1, 1, 1, Ram8K, SinglePort, 1, 8192, 1);
    var ms := [m0, m1];
    var cands := Candidates(ms, cfg);
    assert ms[..1] == [m0];
    assert Candidates([m0], cfg) == [Cand(0, 4096)];
    assert cands == [Cand(0, 4096), Cand(1, 4096)];
    var st0 := Start(ms, 2);
    assert st0.shared == [false, false];
    // outer candidate 0: 4096 + 4096 fills the block, so candidates 0 and 1 merge at once
    assert Pairable(st0, cands, 0, 0, 1, cfg);
    var st1 := MergeAt(st0, 0, 1, 0);
    assert Inner(st0, cands, 0, 0, 1, cfg) == st1;
    assert st1.shared == [true, true];
    assert Middle(st1, cands, 0, 1, cfg) == st1;
    assert Middle(st0, cands, 0, 0, cfg) == st1;
    assert Outer(st1, cands, 1, cfg) == st1;
    assert Outer(st0, cands, 0, cfg) == st1;
  }
}
