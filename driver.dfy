/** The per-run driver: map every memory of every circuit in order with a fresh group id, add up
    the LUT overhead and the blocks per resource, then let the sharing pass merge block RAMs. */
module Driver {
  import opened Arith
  import opened RamTypes
  import opened Enumerator
  import opened Chooser
  import opened Sharing

  /** The architecture options of a run: which resources exist, the two block RAMs' capacities and
      their widest single-port or simple-dual-port configurations. */
  datatype Arch = Arch(hasLutram: bool, hasM8k: bool, hasM128k: bool,
                       m8kBits: int, m128kBits: int, maxWidthRam1: int, maxWidthRam2: int)

  /** A block RAM's configuration: its true-dual-port width is half its widest width, truncated. */
  function BlockConfig(t: PhysType, bits: int, maxWidth: int): (cfg: PhysConfig)
    ensures cfg.maxWidthTdp * 2 <= maxWidth || maxWidth < 0
    ensures maxWidth >= 0 ==> maxWidth - 1 <= cfg.maxWidthTdp * 2
    ensures maxWidth < 0 ==> maxWidth <= cfg.maxWidthTdp * 2 <= maxWidth + 1
  {
    QuotRem(maxWidth, 2);
    PhysConfig(t, bits, maxWidth, Quot(maxWidth, 2))
  }

  function M8kConfig(arch: Arch): PhysConfig
  {
    BlockConfig(Ram8K, arch.m8kBits, arch.maxWidthRam1)
  }

  function M128kConfig(arch: Arch): PhysConfig
  {
    BlockConfig(Ram128K, arch.m128kBits, arch.maxWidthRam2)
  }

  /** One memory to map, with the circuit it belongs to. */
  datatype Slot = Slot(circuitId: int, mem: Memory)

  function SlotsOf(c: Circuit): (slots: seq<Slot>)
    ensures |slots| == |c.memories|
  {
    seq(|c.memories|, k requires 0 <= k < |c.memories| => Slot(c.id, c.memories[k]))
  }

  /** Every memory of every circuit, circuits in order and memories in order within a circuit. */
  function Slots(circuits: seq<Circuit>): seq<Slot>
  {
    if circuits == [] then [] else Slots(circuits[..|circuits| - 1]) + SlotsOf(circuits[|circuits| - 1])
  }

  /** The chooser's verdict on slot `k`, which gets group id `k`. */
  function ChooseAt(slots: seq<Slot>, k: int, arch: Arch, cost: CostFn): Result<RamMapping>
    requires 0 <= k < |slots|
  {
    Choose(slots[k].circuitId, slots[k].mem, k, arch.hasLutram, arch.hasM8k, arch.hasM128k,
           M8kConfig(arch), M128kConfig(arch), cost)
  }

  /** The mapping phase: the chooser on every slot in order; the first failure ends the run. */
  function MapAll(slots: seq<Slot>, arch: Arch, cost: CostFn): (r: Result<seq<RamMapping>>)
    ensures r.Ok? ==> |r.value| == |slots|
  {
    if slots == [] then Ok([])
    else
      var n := |slots| - 1;
      match MapAll(slots[..n], arch, cost)
      case Err(e) => Err(e)
      case Ok(ms) =>
        match ChooseAt(slots, n, arch, cost)
        case Err(e) => Err(e)
        case Ok(m) => Ok(ms + [m])
  }

  /** Total extra LUTs of a mapping list. */
  function SumExtra(ms: seq<RamMapping>): int
  {
    if ms == [] then 0 else SumExtra(ms[..|ms| - 1]) + ms[|ms| - 1].extraLuts
  }

  /** Total blocks of resource `t` used by a mapping list. */
  function SumBlocks(ms: seq<RamMapping>, t: PhysType): int
  {
    if ms == [] then 0
    else SumBlocks(ms[..|ms| - 1], t) + (if ms[|ms| - 1].physType == t then ms[|ms| - 1].physBlocks else 0)
  }

  function OptionalConfig(present: bool, cfg: PhysConfig): Option<PhysConfig>
  {
    if present then Some(cfg) else None
  }

  /** The run's result: the mappings after sharing, the extra LUT total, the LUTRAM blocks, and the
      8K and 128K block counts after sharing; or the first memory that could not be mapped. */
  function AssignRamSpec(circuits: seq<Circuit>, arch: Arch, cost: CostFn): Result<CircuitResult>
  {
    match MapAll(Slots(circuits), arch, cost)
    case Err(e) => Err(e)
    case Ok(ms) =>
      var (shared, m8k, m128k) := ShareAll(ms, OptionalConfig(arch.hasM8k, M8kConfig(arch)),
                                          OptionalConfig(arch.hasM128k, M128kConfig(arch)),
                                          SumBlocks(ms, Ram8K), SumBlocks(ms, Ram128K));
      Ok(CircuitResult(shared, SumExtra(ms), SumBlocks(ms, Lutram), m8k, m128k))
  }

  /** One mapping added to the running totals: its extra LUTs, and its blocks under its resource. */
  method Tally(mappings: seq<RamMapping>, m: RamMapping, extra: int, lutram: int, m8k: int, m128k: int)
    returns (extra': int, lutram': int, m8k': int, m128k': int)
    requires extra == SumExtra(mappings) && lutram == SumBlocks(mappings, Lutram)
    requires m8k == SumBlocks(mappings, Ram8K) && m128k == SumBlocks(mappings, Ram128K)
    ensures extra' == SumExtra(mappings + [m]) && lutram' == SumBlocks(mappings + [m], Lutram)
    ensures m8k' == SumBlocks(mappings + [m], Ram8K) && m128k' == SumBlocks(mappings + [m], Ram128K)
  {
    assert (mappings + [m])[..|mappings|] == mappings;
    extra', lutram', m8k', m128k' := extra + m.extraLuts, lutram, m8k, m128k;
    match m.physType {
      case Lutram => lutram' := lutram + m.physBlocks;
      case Ram8K => m8k' := m8k + m.physBlocks;
      case Ram128K => m128k' := m128k + m.physBlocks;
    }
  }

  /** The inner loop of the driver over one circuit's memories: each memory is mapped with the
      running group id and added to the running totals; a failure stops the loop. */
  method MapCircuit(c: Circuit, arch: Arch, cost: CostFn, m8kCfg: PhysConfig, m128kCfg: PhysConfig,
                    ghost done: seq<Slot>, mappings0: seq<RamMapping>, nextGroupId0: int,
                    extra0: int, lutram0: int, m8k0: int, m128k0: int)
    returns (failure: Option<MapError>, mappings: seq<RamMapping>, nextGroupId: int,
             extraLutsTotal: int, lutramBlocks: int, m8kBlocks: int, m128kBlocks: int)
    requires m8kCfg == M8kConfig(arch) && m128kCfg == M128kConfig(arch)
    requires MapAll(done, arch, cost) == Ok(mappings0) && nextGroupId0 == |mappings0| == |done|
    requires extra0 == SumExtra(mappings0) && lutram0 == SumBlocks(mappings0, Lutram)
    requires m8k0 == SumBlocks(mappings0, Ram8K) && m128k0 == SumBlocks(mappings0, Ram128K)
    ensures failure.Some? ==> MapAll(done + SlotsOf(c), arch, cost) == Err(failure.value)
    ensures failure.None? ==>
              MapAll(done + SlotsOf(c), arch, cost) == Ok(mappings) && nextGroupId == |mappings| &&
              extraLutsTotal == SumExtra(mappings) && lutramBlocks == SumBlocks(mappings, Lutram) &&
              m8kBlocks == SumBlocks(mappings, Ram8K) && m128kBlocks == SumBlocks(mappings, Ram128K)
  {
    mappings, nextGroupId := mappings0, nextGroupId0;
    extraLutsTotal, lutramBlocks, m8kBlocks, m128kBlocks := extra0, lutram0, m8k0, m128k0;
    assert done + SlotsOf(c)[..0] == done;
    for mi := 0 to |c.memories|
      invariant MapAll(done + SlotsOf(c)[..mi], arch, cost) == Ok(mappings)
      invariant nextGroupId == |mappings| == |done| + mi
      invariant extraLutsTotal == SumExtra(mappings) && lutramBlocks == SumBlocks(mappings, Lutram)
      invariant m8kBlocks == SumBlocks(mappings, Ram8K) && m128kBlocks == SumBlocks(mappings, Ram128K)
    {
      MapAllNext(done, c, mi, arch, cost);
      var mapping := ChooseMappingForMemory(c.id, c.memories[mi], nextGroupId, arch.hasLutram, arch.hasM8k,
                                            arch.hasM128k, m8kCfg, m128kCfg, cost);
      if mapping.Err? {
        MapAllFailureSticks(done + SlotsOf(c)[..mi + 1], done + SlotsOf(c), arch, cost);
        return Some(mapping.error), mappings, nextGroupId, extraLutsTotal, lutramBlocks, m8kBlocks, m128kBlocks;
      }
      var m := mapping.value;
      nextGroupId := nextGroupId + 1;
      extraLutsTotal, lutramBlocks, m8kBlocks, m128kBlocks :=
        Tally(mappings, m, extraLutsTotal, lutramBlocks, m8kBlocks, m128kBlocks);
      mappings := mappings + [m];
    }
    assert SlotsOf(c)[..|c.memories|] == SlotsOf(c);
    failure := None;
  }

  /** The mapping phase on one more memory of circuit `c`: the chooser's verdict on that memory,
      with the next group id, decides the outcome. */
  lemma MapAllNext(done: seq<Slot>, c: Circuit, mi: int, arch: Arch, cost: CostFn)
    requires 0 <= mi < |c.memories| && MapAll(done + SlotsOf(c)[..mi], arch, cost).Ok?
    ensures var next := done + SlotsOf(c)[..mi + 1];
            |next| <= |done + SlotsOf(c)| && next == (done + SlotsOf(c))[..|next|] &&
            MapAll(next, arch, cost) ==
              match Choose(c.id, c.memories[mi], |done| + mi, arch.hasLutram, arch.hasM8k, arch.hasM128k,
                           M8kConfig(arch), M128kConfig(arch), cost)
              case Err(e) => Err(e)
              case Ok(m) => Ok(MapAll(done + SlotsOf(c)[..mi], arch, cost).value + [m])
  {
    var next := done + SlotsOf(c)[..mi + 1];
    assert next[..|next| - 1] == done + SlotsOf(c)[..mi];
    assert next[|done| + mi] == Slot(c.id, c.memories[mi]);
    assert next == (done + SlotsOf(c))[..|next|];
  }

  /** The driver of the source: every memory of every circuit is mapped with a running group id
      and running totals, then sharing runs on the collected mappings. */
  method AssignRam(circuits: seq<Circuit>, arch: Arch, cost: CostFn) returns (r: Result<CircuitResult>)
    ensures r == AssignRamSpec(circuits, arch, cost)
  {
    var m8kCfg := BlockConfig(Ram8K, arch.m8kBits, arch.maxWidthRam1);
    var m128kCfg := BlockConfig(Ram128K, arch.m128kBits, arch.maxWidthRam2);
    var mappings: seq<RamMapping> := [];
    var extraLutsTotal := 0;
    var lutramBlocks := 0;
    var m8kBlocks := 0;
    var m128kBlocks := 0;
    var nextGroupId := 0;
    for ci := 0 to |circuits|
      invariant MapAll(Slots(circuits[..ci]), arch, cost) == Ok(mappings)
      invariant nextGroupId == |mappings| == |Slots(circuits[..ci])|
      invariant extraLutsTotal == SumExtra(mappings) && lutramBlocks == SumBlocks(mappings, Lutram)
      invariant m8kBlocks == SumBlocks(mappings, Ram8K) && m128kBlocks == SumBlocks(mappings, Ram128K)
    {
      assert circuits[..ci + 1][..ci] == circuits[..ci];
      assert Slots(circuits[..ci + 1]) == Slots(circuits[..ci]) + SlotsOf(circuits[ci]);
      var failure;
      failure, mappings, nextGroupId, extraLutsTotal, lutramBlocks, m8kBlocks, m128kBlocks :=
        MapCircuit(circuits[ci], arch, cost, m8kCfg, m128kCfg, Slots(circuits[..ci]), mappings, nextGroupId,
                   extraLutsTotal, lutramBlocks, m8kBlocks, m128kBlocks);
      if failure.Some? {
        SlotsPrefix(circuits, ci + 1);
        MapAllFailureSticks(Slots(circuits[..ci + 1]), Slots(circuits), arch, cost);
        return Err(failure.value);
      }
    }
    assert circuits[..|circuits|] == circuits;
    var m8kCfgOpt := if arch.hasM8k then Some(m8kCfg) else None;
    var m128kCfgOpt := if arch.hasM128k then Some(m128kCfg) else None;
    var buffer := new RamMapping[|mappings|](k requires 0 <= k < |mappings| => mappings[k]);
    assert buffer[..] == mappings;
    m8kBlocks, m128kBlocks := ApplySharing(buffer, m8kCfgOpt, m128kCfgOpt, m8kBlocks, m128kBlocks);
    r := Ok(CircuitResult(buffer[..], extraLutsTotal, lutramBlocks, m8kBlocks, m128kBlocks));
  }

  /** The slots of the first `n` circuits are a prefix of the slots of all of them. */
  lemma {:induction false} SlotsPrefix(circuits: seq<Circuit>, n: int)
    requires 0 <= n <= |circuits|
    ensures |Slots(circuits[..n])| <= |Slots(circuits)|
    ensures Slots(circuits[..n]) == Slots(circuits)[..|Slots(circuits[..n])|]
    decreases |circuits| - n
  {
    if n == |circuits| {
      assert circuits[..n] == circuits;
    } else {
      var last := |circuits| - 1;
      assert circuits[..last][..n] == circuits[..n];
      SlotsPrefix(circuits[..last], n);
    }
  }

  /** Once a prefix of the slots fails, every longer list of slots fails with the same error. */
  lemma {:induction false} MapAllFailureSticks(prefix: seq<Slot>, slots: seq<Slot>, arch: Arch, cost: CostFn)
    requires |prefix| <= |slots| && prefix == slots[..|prefix|]
    requires MapAll(prefix, arch, cost).Err?
    ensures MapAll(slots, arch, cost) == MapAll(prefix, arch, cost)
    decreases |slots|
  {
    if |slots| == |prefix| {
      assert prefix == slots;
    } else {
      var n := |slots| - 1;
      assert prefix == slots[..n][..|prefix|];
      MapAllFailureSticks(prefix, slots[..n], arch, cost);
    }
  }
}
