/** Integer arithmetic as the mapping engine performs it on `i32` values.
    Rust's `/` and `%` truncate toward zero, unlike Dafny's Euclidean operators. */
module Arith {

  /** Rust's integer `/` for a positive divisor: the quotient truncated toward zero. */
  function Quot(a: int, b: int): int
    requires b > 0
  {
    if a >= 0 then a / b else -((-a) / b)
  }

  /** Rust's integer `%` for a positive divisor: the remainder takes the sign of the dividend. */
  function Rem(a: int, b: int): int
    requires b > 0
  {
    if a >= 0 then a % b else -((-a) % b)
  }

  /** The engine's ceiling division: `q = a / b; if a % b != 0 { q += 1 }`. */
  function CeilQuot(a: int, b: int): int
    requires b > 0
  {
    Quot(a, b) + (if Rem(a, b) != 0 then 1 else 0)
  }

  /** Truncated quotient and remainder recompose the dividend, and the remainder has the
      dividend's sign and is smaller than the divisor in magnitude. */
  lemma QuotRem(a: int, b: int)
    requires b > 0
    ensures a == b * Quot(a, b) + Rem(a, b)
    ensures a >= 0 ==> 0 <= Rem(a, b) < b
    ensures a < 0 ==> -b < Rem(a, b) <= 0
  {
    if a < 0 {
      var q, m := (-a) / b, (-a) % b;
      assert -a == b * q + m;
      assert a == b * (-q) - m;
    }
  }

  /** Multiplying both sides of an inequality by a non-negative factor keeps it. */
  lemma MulMono(a: int, b: int, c: int)
    requires a <= b && c >= 0
    ensures a * c <= b * c
  {
    assert (b - a) * c >= 0;
  }

  /** The ceiling division of the engine covers its dividend whenever it is positive, and for a
      positive dividend it is the least such multiple: the true ceiling of a / b. */
  lemma CeilQuotCovers(a: int, b: int)
    requires b > 0
    ensures CeilQuot(a, b) >= 1 ==> CeilQuot(a, b) * b >= a
    ensures a > 0 ==> CeilQuot(a, b) >= 1 && (CeilQuot(a, b) - 1) * b < a
    ensures a == 0 ==> CeilQuot(a, b) == 0
  {
    QuotRem(a, b);
    var q, r := Quot(a, b), Rem(a, b);
    var c := CeilQuot(a, b);
    if a > 0 {
      assert q >= 0;
      if r != 0 {
        assert c == q + 1;
        assert c * b == b * q + b;
        assert (c - 1) * b == b * q;
      } else {
        assert c == q;
        assert c * b == a;
        assert q <= 0 ==> b * q <= 0;
      }
    } else if a < 0 && c >= 1 {
      assert c * b >= b;
    }
  }
}

/** The records the mapping engine works on. */
module RamTypes {

  /** Access mode of a logical memory. */
  datatype MemMode = Rom | SinglePort | SimpleDualPort | TrueDualPort

  /** The three physical memory resources; the declaration order is the chooser's tie-break order. */
  datatype PhysType = Lutram | Ram8K | Ram128K

  /** Capacity and port-width limits of one physical resource; a true-dual-port width of 0
      means the resource has no true-dual-port mode. */
  datatype PhysConfig = PhysConfig(physType: PhysType, bits: int, maxWidthNonTdp: int, maxWidthTdp: int)

  /** The fixed LUTRAM configuration: 640 bits, width at most 20, no true-dual-port mode. */
  const PhysLutram := PhysConfig(Lutram, 64 * 10, 20, 0)

  /** One logical memory of a circuit. */
  datatype Memory = Memory(ramId: int, mode: MemMode, depth: int, width: int)

  /** A circuit with its logic-block count and its logical memories in input order. */
  datatype Circuit = Circuit(id: int, logicBlocks: int, memories: seq<Memory>)

  /** The physical realisation chosen for one logical memory. */
  datatype RamMapping = RamMapping(
    circuitId: int,
    logicalRamId: int,
    extraLuts: int,
    logicalWidth: int,
    logicalDepth: int,
    groupId: int,
    series: int,
    parallel: int,
    physType: PhysType,
    mode: MemMode,
    physWidth: int,
    physDepth: int,
    physBlocks: int)

  /** The driver's output: every mapping plus the aggregate LUT and block counts. */
  datatype CircuitResult = CircuitResult(
    mappings: seq<RamMapping>,
    extraLuts: int,
    lutramBlocks: int,
    m8kBlocks: int,
    m128kBlocks: int)

  /** The fatal error of the engine: no enabled resource can realise this memory of this circuit. */
  datatype MapError = NoLegalMapping(ramId: int, circuitId: int)

  datatype Result<T> = Ok(value: T) | Err(error: MapError)

  datatype Option<T> = None | Some(value: T)

  /** The port-width cap that applies to a memory of this mode on this resource. */
  function EffectiveMaxWidth(mode: MemMode, cfg: PhysConfig): int
  {
    if mode == TrueDualPort then cfg.maxWidthTdp else cfg.maxWidthNonTdp
  }

  /** Logical capacity of a mapped memory, width times depth. */
  function LogicalBits(m: RamMapping): int
  {
    m.logicalWidth * m.logicalDepth
  }

  /** The two mappings agree on every field except the two sharing may rewrite, mode and group id. */
  predicate SameExceptModeGroup(m: RamMapping, m': RamMapping)
  {
    m.(mode := m'.mode, groupId := m'.groupId) == m'
  }
}
