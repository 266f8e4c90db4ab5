/** The cross-type chooser: run the enumerator on every enabled resource, in the fixed order
    LUTRAM, 8K, 128K, keep the cheapest with a strict `<`, and fail when none can realise the memory. */
module Chooser {
  import opened RamTypes
  import opened Selection
  import opened Enumerator

  /** The resources in tie-break order. */
  function TypeConfigs(m8kCfg: PhysConfig, m128kCfg: PhysConfig): seq<PhysConfig>
  {
    [PhysLutram, m8kCfg, m128kCfg]
  }

  /** Which resources the run enables, in the same order. */
  function TypeEnabled(hasLutram: bool, hasM8k: bool, hasM128k: bool): seq<bool>
  {
    [hasLutram, hasM8k, hasM128k]
  }

  /** The enumerator's result per resource, absent for a disabled resource. */
  function TypeResults(circuitId: int, mem: Memory, groupId: int, hasLutram: bool, hasM8k: bool, hasM128k: bool,
                       m8kCfg: PhysConfig, m128kCfg: PhysConfig, cost: CostFn): (rs: seq<Option<(RamMapping, real)>>)
    ensures |rs| == 3
  {
    var cfgs := TypeConfigs(m8kCfg, m128kCfg);
    var on := TypeEnabled(hasLutram, hasM8k, hasM128k);
    seq(3, t requires 0 <= t < 3 => if on[t] then BestMapping(circuitId, mem, groupId, cfgs[t], cost) else None)
  }

  /** What the chooser returns: the first cheapest per-resource result, or the fatal error naming
      the memory and its circuit when no enabled resource yields a mapping. */
  function Choose(circuitId: int, mem: Memory, groupId: int, hasLutram: bool, hasM8k: bool, hasM128k: bool,
                  m8kCfg: PhysConfig, m128kCfg: PhysConfig, cost: CostFn): Result<RamMapping>
  {
    match FirstMin(TypeResults(circuitId, mem, groupId, hasLutram, hasM8k, hasM128k, m8kCfg, m128kCfg, cost))
    case None => Err(NoLegalMapping(mem.ramId, circuitId))
    case Some(best) => Ok(best.0)
  }

  /** The chooser fails exactly when every enabled resource rejects the memory, and then reports the
      memory's id and its circuit's id. */
  lemma ChooseFailsIffNoTypeFits(circuitId: int, mem: Memory, groupId: int, hasLutram: bool, hasM8k: bool,
                                 hasM128k: bool, m8kCfg: PhysConfig, m128kCfg: PhysConfig, cost: CostFn)
    ensures var r := Choose(circuitId, mem, groupId, hasLutram, hasM8k, hasM128k, m8kCfg, m128kCfg, cost);
            var cfgs := TypeConfigs(m8kCfg, m128kCfg);
            var on := TypeEnabled(hasLutram, hasM8k, hasM128k);
            (r.Err? <==> forall t :: 0 <= t < 3 && on[t] ==> BestMapping(circuitId, mem, groupId, cfgs[t], cost).None?) &&
            (r.Err? ==> r.error == NoLegalMapping(mem.ramId, circuitId))
  {
    var rs := TypeResults(circuitId, mem, groupId, hasLutram, hasM8k, hasM128k, m8kCfg, m128kCfg, cost);
    var cfgs := TypeConfigs(m8kCfg, m128kCfg);
    var on := TypeEnabled(hasLutram, hasM8k, hasM128k);
    FirstMinNone(rs);
    forall t | 0 <= t < 3
      ensures rs[t].None? <==> (on[t] ==> BestMapping(circuitId, mem, groupId, cfgs[t], cost).None?)
    {
    }
  }

  /** A chosen mapping is the enumerator's result on an enabled resource `t`; no enabled resource
      offers a cheaper mapping, and every enabled resource before `t`
      in the order LUTRAM, 8K, 128K offers a strictly dearer one. */
  lemma ChooseIsEarliestCheapestType(circuitId: int, mem: Memory, groupId: int, hasLutram: bool, hasM8k: bool,
                                     hasM128k: bool, m8kCfg: PhysConfig, m128kCfg: PhysConfig, cost: CostFn)
    requires Choose(circuitId, mem, groupId, hasLutram, hasM8k, hasM128k, m8kCfg, m128kCfg, cost).Ok?
    ensures var m := Choose(circuitId, mem, groupId, hasLutram, hasM8k, hasM128k, m8kCfg, m128kCfg, cost).value;
            var cfgs := TypeConfigs(m8kCfg, m128kCfg);
            var on := TypeEnabled(hasLutram, hasM8k, hasM128k);
            exists t, c ::
              0 <= t < 3 && on[t] && BestMapping(circuitId, mem, groupId, cfgs[t], cost) == Some((m, c)) &&
              (forall u :: 0 <= u < 3 && on[u] && BestMapping(circuitId, mem, groupId, cfgs[u], cost).Some? ==>
                 c <= BestMapping(circuitId, mem, groupId, cfgs[u], cost).value.1) &&
              (forall u :: 0 <= u < t && on[u] && BestMapping(circuitId, mem, groupId, cfgs[u], cost).Some? ==>
                 c < BestMapping(circuitId, mem, groupId, cfgs[u], cost).value.1)
  {
    var rs := TypeResults(circuitId, mem, groupId, hasLutram, hasM8k, hasM128k, m8kCfg, m128kCfg, cost);
    var cfgs := TypeConfigs(m8kCfg, m128kCfg);
    FirstMinIsEarliestMinimum(rs);
    var on := TypeEnabled(hasLutram, hasM8k, hasM128k);
    var t :| 0 <= t < |rs| && rs[t] == FirstMin(rs) && EarliestMinimumAt(rs, t);
    assert on[t] && rs[t] == BestMapping(circuitId, mem, groupId, cfgs[t], cost);
    var m := rs[t].value.0;
    var c := rs[t].value.1;
    forall u | 0 <= u < 3 && on[u] && BestMapping(circuitId, mem, groupId, cfgs[u], cost).Some?
      ensures c <= BestMapping(circuitId, mem, groupId, cfgs[u], cost).value.1
      ensures u < t ==> c < BestMapping(circuitId, mem, groupId, cfgs[u], cost).value.1
    {
      assert rs[u] == BestMapping(circuitId, mem, groupId, cfgs[u], cost);
    }
  }

  /** End-to-end minimality: a chosen mapping is a candidate the enumerator builds for some enabled
      resource `t`, and it costs no more than any candidate of any enabled resource. */
  lemma ChosenIsCheapestCandidate(circuitId: int, mem: Memory, groupId: int, hasLutram: bool, hasM8k: bool,
                                  hasM128k: bool, m8kCfg: PhysConfig, m128kCfg: PhysConfig, cost: CostFn)
    requires Choose(circuitId, mem, groupId, hasLutram, hasM8k, hasM128k, m8kCfg, m128kCfg, cost).Ok?
    ensures var m := Choose(circuitId, mem, groupId, hasLutram, hasM8k, hasM128k, m8kCfg, m128kCfg, cost).value;
            var cfgs := TypeConfigs(m8kCfg, m128kCfg);
            var on := TypeEnabled(hasLutram, hasM8k, hasM128k);
            exists t :: 0 <= t < 3 && on[t] && IsCandidate(m, circuitId, mem, groupId, cfgs[t]) &&
              forall u, m' :: 0 <= u < 3 && on[u] && IsCandidate(m', circuitId, mem, groupId, cfgs[u]) ==>
                cost(m, cfgs[t]) <= cost(m', cfgs[u])
  {
    var m := Choose(circuitId, mem, groupId, hasLutram, hasM8k, hasM128k, m8kCfg, m128kCfg, cost).value;
    var cfgs := TypeConfigs(m8kCfg, m128kCfg);
    var on := TypeEnabled(hasLutram, hasM8k, hasM128k);
    ChooseIsEarliestCheapestType(circuitId, mem, groupId, hasLutram, hasM8k, hasM128k, m8kCfg, m128kCfg, cost);
    var t, c :| 0 <= t < 3 && on[t] && BestMapping(circuitId, mem, groupId, cfgs[t], cost) == Some((m, c)) &&
      (forall u :: 0 <= u < 3 && on[u] && BestMapping(circuitId, mem, groupId, cfgs[u], cost).Some? ==>
         c <= BestMapping(circuitId, mem, groupId, cfgs[u], cost).value.1);
    // the enumerator's reported cost of the chosen mapping is its true cost
    var kt, wt := BestMappingIndex(circuitId, mem, groupId, cfgs[t], cost);
    forall u, m' | 0 <= u < 3 && on[u] && IsCandidate(m', circuitId, mem, groupId, cfgs[u])
      ensures cost(m, cfgs[t]) <= cost(m', cfgs[u])
    {
      BestMappingBeatsCandidate(circuitId, mem, groupId, cfgs[u], cost, m');
    }
  }

  /** A chosen mapping satisfies the shape invariant of the enabled resource that produced it, and it
      is a true-dual-port mapping only on a resource that has a true-dual-port mode. */
  lemma ChosenMappingShape(circuitId: int, mem: Memory, groupId: int, hasLutram: bool, hasM8k: bool,
                           hasM128k: bool, m8kCfg: PhysConfig, m128kCfg: PhysConfig, cost: CostFn)
    requires Choose(circuitId, mem, groupId, hasLutram, hasM8k, hasM128k, m8kCfg, m128kCfg, cost).Ok?
    ensures var m := Choose(circuitId, mem, groupId, hasLutram, hasM8k, hasM128k, m8kCfg, m128kCfg, cost).value;
            var cfgs := TypeConfigs(m8kCfg, m128kCfg);
            var on := TypeEnabled(hasLutram, hasM8k, hasM128k);
            exists t :: 0 <= t < 3 && on[t] && ShapeOK(m, circuitId, mem, groupId, cfgs[t])
  {
    ChooseIsEarliestCheapestType(circuitId, mem, groupId, hasLutram, hasM8k, hasM128k, m8kCfg, m128kCfg, cost);
    var m := Choose(circuitId, mem, groupId, hasLutram, hasM8k, hasM128k, m8kCfg, m128kCfg, cost).value;
    var cfgs := TypeConfigs(m8kCfg, m128kCfg);
    var on := TypeEnabled(hasLutram, hasM8k, hasM128k);
    var t, c :| 0 <= t < 3 && on[t] && BestMapping(circuitId, mem, groupId, cfgs[t], cost) == Some((m, c));
    BestMappingShape(circuitId, mem, groupId, cfgs[t], cost);
  }

  /** The chooser: one enumerator call per enabled resource, each replacing the kept mapping only
      when strictly cheaper (nothing kept yet stands for the source's infinite starting cost). */
  method ChooseMappingForMemory(circuitId: int, mem: Memory, groupId: int, hasLutram: bool, hasM8k: bool,
                                hasM128k: bool, m8kCfg: PhysConfig, m128kCfg: PhysConfig, cost: CostFn)
    returns (r: Result<RamMapping>)
    ensures r == Choose(circuitId, mem, groupId, hasLutram, hasM8k, hasM128k, m8kCfg, m128kCfg, cost)
  {
    ghost var rs := TypeResults(circuitId, mem, groupId, hasLutram, hasM8k, hasM128k, m8kCfg, m128kCfg, cost);
    assert rs[..1][..0] == [] && rs[..2][..1] == rs[..1] && rs[..3][..2] == rs[..2] && rs[..3] == rs;
    var bestMapping: Option<RamMapping> := None;
    var bestCost: real := 0.0;
    if hasLutram {
      var found := BestMappingForPhysType(circuitId, mem, groupId, PhysLutram, cost);
      if found.Some? {
        var (m, c) := found.value;
        if bestMapping.None? || c < bestCost {
          bestCost := c;
          bestMapping := Some(m);
        }
      }
    }
    assert FirstMin(rs[..1]) == if bestMapping.None? then None else Some((bestMapping.value, bestCost));
    if hasM8k {
      var found := BestMappingForPhysType(circuitId, mem, groupId, m8kCfg, cost);
      if found.Some? {
        var (m, c) := found.value;
        if bestMapping.None? || c < bestCost {
          bestCost := c;
          bestMapping := Some(m);
        }
      }
    }
    assert FirstMin(rs[..2]) == if bestMapping.None? then None else Some((bestMapping.value, bestCost));
    if hasM128k {
      var found := BestMappingForPhysType(circuitId, mem, groupId, m128kCfg, cost);
      if found.Some? {
        var (m, c) := found.value;
        if bestMapping.None? || c < bestCost {
          bestMapping := Some(m);
        }
      }
    }
    if bestMapping.None? {
      r := Err(NoLegalMapping(mem.ramId, circuitId));
    } else {
      r := Ok(bestMapping.value);
    }
  }

  /** A true-dual-port memory cannot be mapped when every enabled block RAM lacks a true-dual-port
      mode (LUTRAM never has one): the run stops with the memory's error. */
  lemma TrueDualPortWithoutTdpTypesFails(circuitId: int, mem: Memory, groupId: int, hasLutram: bool,
                                         hasM8k: bool, hasM128k: bool, m8kCfg: PhysConfig,
                                         m128kCfg: PhysConfig, cost: CostFn)
    requires mem.mode == TrueDualPort
    requires hasM8k ==> m8kCfg.maxWidthTdp == 0
    requires hasM128k ==> m128kCfg.maxWidthTdp == 0
    ensures Choose(circuitId, mem, groupId, hasLutram, hasM8k, hasM128k, m8kCfg, m128kCfg, cost)
            == Err(NoLegalMapping(mem.ramId, circuitId))
  {
    ChooseFailsIffNoTypeFits(circuitId, mem, groupId, hasLutram, hasM8k, hasM128k, m8kCfg, m128kCfg, cost);
  }

  /** A single-port memory 200 bits wide is mapped even when the only enabled resource is a 128K
      block RAM whose widest port is 128 bits: the enumerator splits it over parallel blocks. */
  lemma WideMemoryMaps(cost: CostFn)
    ensures Choose(0, Memory(0, SinglePort, 512, 200), 0, false, false, true,
                   PhysConfig(Ram8K, 8192, 32, 16), PhysConfig(Ram128K, 128 * 1024, 128, 64), cost).Ok?
  {
    var m128kCfg := PhysConfig(Ram128K, 128 * 1024, 128, 64);
    BlockRamWidthUnbounded(0, Memory(0, SinglePort, 512, 200), 0, m128kCfg, cost);
    ChooseFailsIffNoTypeFits(0, Memory(0, SinglePort, 512, 200), 0, false, false, true,
                             PhysConfig(Ram8K, 8192, 32, 16), m128kCfg, cost);
  }
}
