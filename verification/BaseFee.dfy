/** The EVM base fee controller (pallets/base-fee).

    After every block the fee moves towards the price at which blocks are
    ideally full. The step is a chain of floor divisions, clamps and checked
    256-bit operations; this module proves what that chain guarantees for one
    block and over whole runs of blocks. */
module BaseFee {

  /** One whole, in the parts-per-million fixed point used by the runtime. */
  const ONE: nat := 1_000_000

  const U256_MAX: nat := 0xFFFFFFFF_FFFFFFFF_FFFFFFFF_FFFFFFFF_FFFFFFFF_FFFFFFFF_FFFFFFFF_FFFFFFFF

  type Permill = p: nat | p <= ONE
  type U256 = x: nat | x <= U256_MAX

  /** The chain constants: the fullness thresholds and the default fee. The
      thresholds are clamp bounds, so the lower one may not exceed the upper one. */
  datatype Config = Config(lower: Permill, ideal: Permill, upper: Permill, defaultFee: U256)
  {
    ghost predicate Valid() { lower <= upper }
  }

  /** What one finalized block contributes. */
  datatype Block = Block(elasticity: Permill, weight: nat, maxWeight: nat)

  // ---------------------------------------------------------------- fixed point

  /** `Permill::from_rational`: rounds down; a zero denominator and a ratio
      above one both saturate. Division of two Permill values is the same. */
  function FromRational(p: nat, q: nat): Permill {
    if q == 0 || p >= q then ONE
    else
      RatioBound(p, q);
      p * ONE / q
  }

  /** `Permill::from_parts` saturates. */
  function FromParts(parts: nat): Permill {
    if parts > ONE then ONE else parts
  }

  /** The product of two Permill values, rounded down. */
  function Times(a: Permill, b: Permill): (r: Permill)
    ensures r <= a && r <= b
  {
    TimesBound(a, b);
    a * b / ONE
  }

  function Clamp(x: nat, lo: nat, hi: nat): nat
    requires lo <= hi
  {
    if x < lo then lo else if x > hi then hi else x
  }

  // ---------------------------------------------------------------- the controller

  /** Block fullness, rescaled to the configured range. */
  function Usage(c: Config, weight: nat, maxWeight: nat): Permill
    requires c.Valid()
  {
    FromRational(Clamp(FromRational(weight, maxWeight), c.lower, c.upper) - c.lower, c.upper - c.lower)
  }

  /** How much of the elasticity a given distance from the ideal uses up. */
  function Coefficient(distance: Permill, elasticity: Permill): (k: Permill)
    ensures k <= elasticity
  {
    Times(elasticity, FromParts(distance * 2))
  }

  /** The lowest price a decrease may reach. When the product does not fit in
      256 bits the default fee takes its place and is still divided. */
  function LowestFee(c: Config): (r: U256)
    ensures r <= c.defaultFee
  {
    var scaled := c.defaultFee * c.ideal;
    if scaled <= U256_MAX
    then
      ShareBound(c.defaultFee, c.ideal);
      scaled / ONE
    else c.defaultFee / ONE
  }

  function Raised(fee: U256, k: Permill): U256 {
    if fee * k <= U256_MAX
    then
      var raised := fee + fee * k / ONE;
      if raised <= U256_MAX then raised else U256_MAX
    else fee
  }

  function Lowered(fee: U256, k: Permill, lowest: U256): U256 {
    if fee * k <= U256_MAX
    then
      ShareBound(fee, k);
      var lowered := fee - fee * k / ONE;
      if lowered >= lowest then lowered else lowest
    else fee
  }

  /** The coefficient that a block applies to the fee, in either direction. */
  function Pull(c: Config, b: Block): Permill
    requires c.Valid()
  {
    var usage := Usage(c, b.weight, b.maxWeight);
    Coefficient(if usage > c.ideal then usage - c.ideal else c.ideal - usage, b.elasticity)
  }

  function NextFee(c: Config, fee: U256, b: Block): U256
    requires c.Valid()
  {
    var usage := Usage(c, b.weight, b.maxWeight);
    if b.elasticity == 0 then fee
    else if usage > c.ideal then Raised(fee, Coefficient(usage - c.ideal, b.elasticity))
    else if usage < c.ideal then Lowered(fee, Coefficient(c.ideal - usage, b.elasticity), LowestFee(c))
    else fee
  }

  // ---------------------------------------------------------------- the pallet

  /** The two storage items and the operations that write them. */
  class Pallet {
    const config: Config
    var baseFeePerGas: U256
    var elasticity: Permill

    /** Genesis build; the default genesis passes the configured defaults. */
    constructor (config: Config, baseFeePerGas: U256, elasticity: Permill)
      ensures this.config == config && this.baseFeePerGas == baseFeePerGas && this.elasticity == elasticity
    {
      this.config := config;
      this.baseFeePerGas := baseFeePerGas;
      this.elasticity := elasticity;
    }

    method SetBaseFeePerGas(value: U256)
      modifies this`baseFeePerGas
      ensures baseFeePerGas == value
    {
      baseFeePerGas := value;
    }

    method SetElasticity(value: Permill)
      modifies this`elasticity
      ensures elasticity == value
    {
      elasticity := value;
    }

    /** The closing step of a block; returns whether the overflow event was emitted. */
    method OnFinalize(weight: nat, maxWeight: nat) returns (overflow: bool)
      requires config.Valid()
      modifies this`baseFeePerGas
      ensures baseFeePerGas == NextFee(config, old(baseFeePerGas), Block(elasticity, weight, maxWeight))
      ensures overflow <==> old(baseFeePerGas) * Pull(config, Block(elasticity, weight, maxWeight)) > U256_MAX
    {
      overflow := false;
      ghost var b := Block(elasticity, weight, maxWeight);
      NoPull(config, b);
      if elasticity == 0 {
        return;
      }
      var weightUsed := Clamp(FromRational(weight, maxWeight), config.lower, config.upper);
      var usage := FromRational(weightUsed - config.lower, config.upper - config.lower);
      assert usage == Usage(config, weight, maxWeight);
      if usage > config.ideal {
        overflow := Increase(Coefficient(usage - config.ideal, elasticity));
      } else if usage < config.ideal {
        overflow := Decrease(Coefficient(config.ideal - usage, elasticity), LowestFee(config));
      }
    }

    method Increase(coef: Permill) returns (overflow: bool)
      modifies this`baseFeePerGas
      ensures baseFeePerGas == Raised(old(baseFeePerGas), coef)
      ensures overflow <==> old(baseFeePerGas) * coef > U256_MAX
    {
      var scaled := baseFeePerGas * coef;
      overflow := scaled > U256_MAX;
      if !overflow {
        var raised := baseFeePerGas + scaled / ONE;
        baseFeePerGas := if raised <= U256_MAX then raised else U256_MAX;
      }
    }

    method Decrease(coef: Permill, lowest: U256) returns (overflow: bool)
      modifies this`baseFeePerGas
      ensures baseFeePerGas == Lowered(old(baseFeePerGas), coef, lowest)
      ensures overflow <==> old(baseFeePerGas) * coef > U256_MAX
    {
      var scaled := baseFeePerGas * coef;
      overflow := scaled > U256_MAX;
      if !overflow {
        ShareBound(baseFeePerGas, coef);
        var lowered := baseFeePerGas - scaled / ONE;
        baseFeePerGas := if lowered >= lowest then lowered else lowest;
      }
    }
  }

  // ---------------------------------------------------------------- arithmetic

  lemma ProductMonotone(a: nat, x: nat, y: nat)
    requires x <= y
    ensures a * x <= a * y
  {
  }

  lemma QuotientMonotone(x: nat, y: nat, d: nat)
    requires d > 0 && x <= y
    ensures x / d <= y / d
  {
    if x / d > y / d {
      ProductMonotone(d, y / d + 1, x / d);
      assert false;
    }
  }

  lemma FloorDiv(x: nat, d: nat, bound: nat)
    requires d > 0 && x <= bound * d
    ensures x / d * d <= x < (x / d + 1) * d && x / d <= bound
    ensures x == bound * d ==> x / d == bound
  {
  }

  lemma RatioBound(p: nat, q: nat)
    requires p < q
    ensures 0 <= p * ONE / q <= ONE
  {
    assert p * ONE <= ONE * q;
    FloorDiv(p * ONE, q, ONE);
  }

  lemma ShareBound(fee: nat, k: Permill)
    ensures fee * k / ONE <= fee
    ensures fee * k / ONE * ONE <= fee * k
  {
  }

  lemma TimesBound(a: Permill, b: Permill)
    ensures a * b / ONE <= a && a * b / ONE <= b
  {
    ShareBound(a, b);
    assert a * b == b * a;
    ShareBound(b, a);
  }

  // ---------------------------------------------------------------- exact values

  /** r is the quotient of a by d, rounded down. */
  ghost predicate IsFloor(r: int, a: int, d: int) {
    r * d <= a < (r + 1) * d
  }

  lemma FloorIsUnique(r: int, r': int, a: int, d: int)
    requires d > 0 && IsFloor(r, a, d) && IsFloor(r', a, d)
    ensures r == r'
  {
    assert r + 1 <= r' ==> (r + 1) * d <= r' * d;
    assert r' + 1 <= r ==> (r' + 1) * d <= r * d;
  }

  lemma DivIsFloor(a: int, d: int)
    requires d > 0
    ensures IsFloor(a / d, a, d)
  {
    assert a == d * (a / d) + a % d;
  }

  lemma DivIs(r: int, a: int, d: int)
    requires d > 0 && IsFloor(r, a, d)
    ensures a / d == r
  {
    DivIsFloor(a, d);
    FloorIsUnique(r, a / d, a, d);
  }

  /** The block is full to f parts per million; a block over the maximum is full. */
  ghost predicate IsFullness(w: nat, maxWeight: nat, f: int) {
    if w >= maxWeight then f == ONE else IsFloor(f, w * ONE, maxWeight)
  }

  lemma FullnessIs(f: int, w: nat, maxWeight: nat)
    requires IsFullness(w, maxWeight, f)
    ensures FromRational(w, maxWeight) == f
  {
    if w < maxWeight {
      DivIs(f, w * ONE, maxWeight);
    }
  }

  /** u is the position of f in the configured range, in parts per million; an
      empty range counts as exceeded. */
  ghost predicate IsUsage(c: Config, f: int, u: int) {
    if f >= c.upper || c.lower == c.upper then u == ONE
    else if f <= c.lower then u == 0
    else IsFloor(u, (f - c.lower) * ONE, c.upper - c.lower)
  }

  lemma UsageIs(c: Config, w: nat, maxWeight: nat, f: int, u: int)
    requires c.Valid() && IsFullness(w, maxWeight, f) && IsUsage(c, f, u)
    ensures Usage(c, w, maxWeight) == u
  {
    FullnessIs(f, w, maxWeight);
    var x := Clamp(f, c.lower, c.upper);
    if x < c.upper {
      FullnessIs(u, x - c.lower, c.upper - c.lower);
    }
  }

  /** Twice the distance from the ideal, at most one. */
  function Deviation(ideal: int, u: int): int {
    var d := if u > ideal then 2 * (u - ideal) else 2 * (ideal - u);
    if d <= ONE then d else ONE
  }

  lemma PullIs(c: Config, b: Block, u: int, k: int)
    requires c.Valid() && Usage(c, b.weight, b.maxWeight) == u
    requires IsFloor(k, b.elasticity * Deviation(c.ideal, u), ONE)
    ensures Pull(c, b) == k
  {
    DivIs(k, b.elasticity * Deviation(c.ideal, u), ONE);
  }

  /** The floor price is the ideal share of the default fee; if that product does
      not fit, one millionth of the default fee. */
  ghost predicate IsFloorPrice(c: Config, lowest: int) {
    IsFloor(lowest, if c.defaultFee * c.ideal <= U256_MAX then c.defaultFee * c.ideal else c.defaultFee, ONE)
  }

  lemma FloorPriceIs(c: Config, lowest: int)
    ensures IsFloorPrice(c, lowest) <==> LowestFee(c) == lowest
  {
    var scaled := if c.defaultFee * c.ideal <= U256_MAX then c.defaultFee * c.ideal else c.defaultFee;
    DivIsFloor(scaled, ONE);
    if IsFloorPrice(c, lowest) {
      FloorIsUnique(lowest, scaled / ONE, scaled, ONE);
    }
  }

  /** The whole controller without a division: the block is filled to f parts, used
      to u parts of the configured range, k of the elasticity applies, and the fee
      moves by `share` towards the deviation, not beyond 256 bits or the floor
      price. A fee that cannot be scaled stays. */
  lemma NextFeeIs(c: Config, fee: U256, b: Block, f: int, u: int, k: int, share: int, lowest: int)
    requires c.Valid() && IsFullness(b.weight, b.maxWeight, f) && IsUsage(c, f, u)
    requires IsFloor(k, b.elasticity * Deviation(c.ideal, u), ONE) && IsFloor(share, fee * k, ONE)
    requires IsFloorPrice(c, lowest)
    ensures b.elasticity == 0 || u == c.ideal || fee * k > U256_MAX ==> NextFee(c, fee, b) == fee
    ensures b.elasticity > 0 && u > c.ideal && fee * k <= U256_MAX ==>
              NextFee(c, fee, b) == if fee + share <= U256_MAX then fee + share else U256_MAX
    ensures b.elasticity > 0 && u < c.ideal && fee * k <= U256_MAX ==>
              NextFee(c, fee, b) == if fee >= share + lowest then fee - share else lowest
  {
    UsageIs(c, b.weight, b.maxWeight, f, u);
    PullIs(c, b, u, k);
    DivIs(share, fee * k, ONE);
    FloorPriceIs(c, lowest);
  }

  lemma NoPull(c: Config, b: Block)
    requires c.Valid()
    ensures b.elasticity == 0 || Usage(c, b.weight, b.maxWeight) == c.ideal ==> Pull(c, b) == 0
  {
  }

  // ---------------------------------------------------------------- full swing

  /** With the ideal at one half, a block at the upper threshold spends the whole
      elasticity on an increase, one at the lower threshold spends it all on a
      decrease, and one at the ideal usage changes nothing. */
  lemma FullSwing(c: Config, fee: U256, b: Block)
    requires c.lower < c.upper && c.ideal == 500_000
    ensures FromRational(b.weight, b.maxWeight) >= c.upper ==> NextFee(c, fee, b) == Raised(fee, b.elasticity)
    ensures FromRational(b.weight, b.maxWeight) <= c.lower ==>
              NextFee(c, fee, b) == if b.elasticity == 0 then fee else Lowered(fee, b.elasticity, LowestFee(c))
    ensures Usage(c, b.weight, b.maxWeight) == c.ideal ==> NextFee(c, fee, b) == fee
  {
    FullCoefficient(b.elasticity);
    if FromRational(b.weight, b.maxWeight) <= c.lower {
      assert 0 * ONE / (c.upper - c.lower) == 0;
    }
  }

  lemma FullCoefficient(e: Permill)
    ensures Coefficient(500_000, e) == e
  {
  }

  // ---------------------------------------------------------------- monotonicity

  lemma RationalMonotone(p: nat, p': nat, q: nat)
    requires p <= p'
    ensures FromRational(p, q) <= FromRational(p', q)
  {
    if q > 0 && p' < q {
      ProductMonotone(ONE, p, p');
      QuotientMonotone(p * ONE, p' * ONE, q);
    }
  }

  lemma UsageMonotone(c: Config, w: nat, w': nat, maxWeight: nat)
    requires c.Valid() && w <= w'
    ensures Usage(c, w, maxWeight) <= Usage(c, w', maxWeight)
  {
    RationalMonotone(w, w', maxWeight);
    RationalMonotone(Clamp(FromRational(w, maxWeight), c.lower, c.upper) - c.lower,
                     Clamp(FromRational(w', maxWeight), c.lower, c.upper) - c.lower, c.upper - c.lower);
  }

  lemma CoefficientMonotone(d: Permill, d': Permill, e: Permill)
    requires d <= d'
    ensures Coefficient(d, e) <= Coefficient(d', e)
  {
    ProductMonotone(e, FromParts(d * 2), FromParts(d' * 2));
    QuotientMonotone(e * FromParts(d * 2), e * FromParts(d' * 2), ONE);
  }

  /** The share of the fee that a coefficient moves grows with the coefficient. */
  lemma ShareMonotone(fee: U256, k: Permill, k': Permill)
    requires k <= k'
    ensures fee * k <= fee * k' && fee * k / ONE <= fee * k' / ONE
  {
    ProductMonotone(fee, k, k');
    QuotientMonotone(fee * k, fee * k', ONE);
  }

  /** Fuller blocks never lead to a lower fee, through the whole pipeline, if the
      fee has not been set below the floor price and scaling it cannot overflow. */
  lemma NextFeeMonotone(c: Config, fee: U256, e: Permill, w: nat, w': nat, maxWeight: nat)
    requires c.Valid()
    requires LowestFee(c) <= fee && fee * e <= U256_MAX
    requires w <= w'
    ensures NextFee(c, fee, Block(e, w, maxWeight)) <= NextFee(c, fee, Block(e, w', maxWeight))
  {
    UsageMonotone(c, w, w', maxWeight);
    var u, u' := Usage(c, w, maxWeight), Usage(c, w', maxWeight);
    if e == 0 {
    } else if u > c.ideal {
      CoefficientMonotone(u - c.ideal, u' - c.ideal, e);
      ShareMonotone(fee, Coefficient(u' - c.ideal, e), e);
      ShareMonotone(fee, Coefficient(u - c.ideal, e), Coefficient(u' - c.ideal, e));
    } else if u' < c.ideal {
      CoefficientMonotone(c.ideal - u', c.ideal - u, e);
      ShareMonotone(fee, Coefficient(c.ideal - u, e), e);
      ShareMonotone(fee, Coefficient(c.ideal - u', e), Coefficient(c.ideal - u, e));
    } else {
      StepBounds(c, fee, Block(e, w, maxWeight));
      StepBounds(c, fee, Block(e, w', maxWeight));
    }
  }

  /** The constants of the uomi runtime. */
  const UOMI := Config(0, 500_000, ONE, 57_080_000_000)

  /** Half of its default fee. */
  const UOMI_FLOOR: nat := 28_540_000_000

  lemma UomiFloor()
    ensures LowestFee(UOMI) == UOMI_FLOOR
  {
    FloorPriceIs(UOMI, UOMI_FLOOR);
  }

  /** With these constants the usage is the plain fullness of the block. */
  lemma UomiUsage(parts: Permill)
    ensures Usage(UOMI, parts, ONE) == parts
  {
  }

  /** A fee that was set below the floor price breaks monotonicity: an empty
      block lifts it to the floor while an ideally full one leaves it alone. */
  lemma FailsBelowFloor(fee: U256, e: Permill)
    requires e > 0 && fee < LowestFee(UOMI)
    ensures NextFee(UOMI, fee, Block(e, 0, ONE)) > NextFee(UOMI, fee, Block(e, 500_000, ONE))
  {
    UomiUsage(0);
    UomiUsage(500_000);
    FullCoefficient(e);
    ProductMonotone(fee, e, ONE);
  }

  /** The least distance from the ideal that moves the fee at all. */
  function FirstStep(e: Permill): nat
    requires e > 0
  {
    (500_000 + e - 1) / e
  }

  lemma FirstStepBounds(e: Permill)
    requires e > 0
    ensures 500_000 <= e * FirstStep(e) < 500_000 + e && 0 < FirstStep(e) <= 500_000
  {
    var d := FirstStep(e);
    DivIsFloor(500_000 + e - 1, e);
    assert d >= 500_001 ==> d * e >= 500_001 * e;
    assert d * e == e * d;
  }

  lemma FirstStepCoefficient(e: Permill)
    requires e > 0
    ensures 0 < FirstStep(e) <= 500_000
    ensures Coefficient(FirstStep(e), e) == if e == ONE then 2 else 1
  {
    var d := FirstStep(e);
    FirstStepBounds(e);
    assert FromParts(d * 2) == d * 2;
    var scaled := e * (d * 2);
    assert scaled == 2 * (e * d);
    if e > 500_000 {
      ProductMonotone(e, 1, d);
      if d > 1 {
        ProductMonotone(e, 2, d);
        assert false;
      }
    }
    assert Coefficient(d, e) == scaled / ONE;
  }

  /** A fee that scales by the first step but not by the whole elasticity is left
      alone by an empty block and lowered by a fuller one. */
  lemma FailsOnOverflow(fee: U256, e: Permill)
    requires e > 0 && fee * e > U256_MAX && (e == ONE ==> 2 * fee <= U256_MAX)
    ensures NextFee(UOMI, fee, Block(e, 0, ONE)) > NextFee(UOMI, fee, Block(e, 500_000 - FirstStep(e), ONE))
  {
    var k := if e == ONE then 2 else 1;
    FirstStepCoefficient(e);
    UomiUsage(0);
    UomiUsage(500_000 - FirstStep(e));
    FullCoefficient(e);
    ProductMonotone(fee, e, ONE);
    assert fee * k / ONE > 0;
  }

  /** With elasticity one every non-zero coefficient is at least two. */
  lemma FixedWhenNothingScales(fee: U256, w: nat, maxWeight: nat)
    requires 2 * fee > U256_MAX
    ensures NextFee(UOMI, fee, Block(ONE, w, maxWeight)) == fee
  {
    var k := Pull(UOMI, Block(ONE, w, maxWeight));
    assert k == 0 || k >= 2;
    if k >= 2 {
      ProductMonotone(fee, 2, k);
    }
  }

  ghost predicate Monotone(fee: U256, e: Permill) {
    forall w: nat, w': nat, maxWeight: nat :: w <= w' ==>
      NextFee(UOMI, fee, Block(e, w, maxWeight)) <= NextFee(UOMI, fee, Block(e, w', maxWeight))
  }

  /** Exactly when fuller blocks never lead to a lower fee: the elasticity is zero,
      or the fee is at or above the floor price and either scales by the whole
      elasticity or does not scale by any coefficient at all. */
  lemma MonotoneIff(fee: U256, e: Permill)
    ensures Monotone(fee, e) <==>
              e == 0 || (UOMI_FLOOR <= fee && (fee * e <= U256_MAX || (e == ONE && 2 * fee > U256_MAX)))
  {
    UomiFloor();
    if e > 0 && fee < LowestFee(UOMI) {
      FailsBelowFloor(fee, e);
    } else if fee * e > U256_MAX && (e < ONE || 2 * fee <= U256_MAX) {
      FirstStepCoefficient(e);
      FailsOnOverflow(fee, e);
    } else {
      forall w: nat, w': nat, m: nat | w <= w'
        ensures NextFee(UOMI, fee, Block(e, w, m)) <= NextFee(UOMI, fee, Block(e, w', m))
      {
        if fee * e <= U256_MAX && LowestFee(UOMI) <= fee {
          NextFeeMonotone(UOMI, fee, e, w, w', m);
        } else if e == ONE {
          FixedWhenNothingScales(fee, w, m);
          FixedWhenNothingScales(fee, w', m);
        }
      }
    }
  }

  // ---------------------------------------------------------------- runs

  /** One block moves the fee by at most the elasticity, in the direction that
      fullness dictates, and never through the floor price. */
  lemma StepBounds(c: Config, fee: U256, b: Block)
    requires c.Valid() && LowestFee(c) <= fee
    ensures LowestFee(c) <= NextFee(c, fee, b)
    ensures fee * (ONE - b.elasticity) <= NextFee(c, fee, b) * ONE <= fee * (ONE + b.elasticity)
    ensures Usage(c, b.weight, b.maxWeight) >= c.ideal ==> NextFee(c, fee, b) >= fee
    ensures Usage(c, b.weight, b.maxWeight) <= c.ideal ==> NextFee(c, fee, b) <= fee
  {
    var usage, e := Usage(c, b.weight, b.maxWeight), b.elasticity;
    if e == 0 || usage == c.ideal {
      WithinElasticity(fee, fee, 0, 0, e);
    } else if usage > c.ideal {
      RaisedBounds(fee, Coefficient(usage - c.ideal, e), e);
    } else {
      LoweredBounds(fee, Coefficient(c.ideal - usage, e), e, LowestFee(c));
    }
  }

  /** A move of at most `share`, itself at most the k-th part of the fee. */
  lemma WithinElasticity(fee: nat, next: nat, share: nat, k: nat, e: Permill)
    requires k <= e && share * ONE <= fee * k
    requires fee - share <= next <= fee + share
    ensures fee * (ONE - e) <= next * ONE <= fee * (ONE + e)
  {
  }

  lemma RaisedBounds(fee: U256, k: Permill, e: Permill)
    requires k <= e
    ensures fee <= Raised(fee, k)
    ensures fee * (ONE - e) <= Raised(fee, k) * ONE <= fee * (ONE + e)
  {
    ShareBound(fee, k);
    var share := fee * k / ONE;
    assert fee <= Raised(fee, k) <= fee + share;
    WithinElasticity(fee, Raised(fee, k), share, k, e);
  }

  lemma LoweredBounds(fee: U256, k: Permill, e: Permill, lowest: U256)
    requires k <= e && lowest <= fee
    ensures lowest <= Lowered(fee, k, lowest) <= fee
    ensures fee * (ONE - e) <= Lowered(fee, k, lowest) * ONE <= fee * (ONE + e)
  {
  }

  function FeeAfter(c: Config, fee: U256, blocks: seq<Block>): U256
    requires c.Valid()
  {
    if blocks == [] then fee else NextFee(c, FeeAfter(c, fee, blocks[..|blocks| - 1]), blocks[|blocks| - 1])
  }

  /** The product of 10^6 + e over the blocks: the steepest possible growth. */
  function Growth(blocks: seq<Block>): nat {
    if blocks == [] then 1 else Growth(blocks[..|blocks| - 1]) * (ONE + blocks[|blocks| - 1].elasticity)
  }

  /** The product of 10^6 - e over the blocks: the steepest possible decay. */
  function Decay(blocks: seq<Block>): nat {
    if blocks == [] then 1 else Decay(blocks[..|blocks| - 1]) * (ONE - blocks[|blocks| - 1].elasticity)
  }

  function Pow(base: nat, n: nat): nat {
    if n == 0 then 1 else Pow(base, n - 1) * base
  }

  /** Over any run, whatever root does to the elasticity between blocks, the fee
      stays above the floor and inside the compounded envelope. */
  lemma {:induction false} FeeEnvelope(c: Config, fee: U256, blocks: seq<Block>)
    requires c.Valid() && LowestFee(c) <= fee
    ensures LowestFee(c) <= FeeAfter(c, fee, blocks)
    ensures fee * Decay(blocks) <= FeeAfter(c, fee, blocks) * Pow(ONE, |blocks|) <= fee * Growth(blocks)
  {
    if blocks != [] {
      var before, b := blocks[..|blocks| - 1], blocks[|blocks| - 1];
      FeeEnvelope(c, fee, before);
      var x := FeeAfter(c, fee, before);
      StepBounds(c, x, b);
      CompoundLower(fee, Decay(before), x, Pow(ONE, |before|), ONE - b.elasticity, NextFee(c, x, b));
      CompoundUpper(fee, Growth(before), x, Pow(ONE, |before|), ONE + b.elasticity, NextFee(c, x, b));
    }
  }

  lemma CompoundLower(fee: nat, d: nat, x: nat, p: nat, r: nat, y: nat)
    requires fee * d <= x * p && x * r <= y * ONE
    ensures fee * (d * r) <= y * (p * ONE)
  {
  }

  lemma CompoundUpper(fee: nat, g: nat, x: nat, p: nat, r: nat, y: nat)
    requires x * p <= fee * g && y * ONE <= x * r
    ensures y * (p * ONE) <= fee * (g * r)
  {
  }

  lemma {:induction false} ConstantElasticity(blocks: seq<Block>, e: Permill)
    requires forall b :: b in blocks ==> b.elasticity == e
    ensures Growth(blocks) == Pow(ONE + e, |blocks|) && Decay(blocks) == Pow(ONE - e, |blocks|)
  {
    if blocks != [] {
      ConstantElasticity(blocks[..|blocks| - 1], e);
    }
  }

  /** The default genesis starts on the right side of the floor, so with a
      constant elasticity e the fee after n blocks lies between
      fee * (1 - e)^n and fee * (1 + e)^n, and at or above the floor price. */
  lemma DefaultGenesisEnvelope(c: Config, e: Permill, blocks: seq<Block>)
    requires c.Valid()
    requires forall b :: b in blocks ==> b.elasticity == e
    ensures var n, fee := |blocks|, FeeAfter(c, c.defaultFee, blocks);
            LowestFee(c) <= fee &&
            c.defaultFee * Pow(ONE - e, n) <= fee * Pow(ONE, n) <= c.defaultFee * Pow(ONE + e, n)
  {
    FeeEnvelope(c, c.defaultFee, blocks);
    ConstantElasticity(blocks, e);
  }

  /** For the uomi runtime: after the default genesis the fee is never below half
      of its default. */
  lemma UomiGenesisEnvelope(e: Permill, blocks: seq<Block>)
    requires forall b :: b in blocks ==> b.elasticity == e
    ensures var n, fee := |blocks|, FeeAfter(UOMI, 57_080_000_000, blocks);
            28_540_000_000 <= fee &&
            57_080_000_000 * Pow(ONE - e, n) <= fee * Pow(ONE, n) <= 57_080_000_000 * Pow(ONE + e, n)
  {
    UomiFloor();
    DefaultGenesisEnvelope(UOMI, e, blocks);
  }
}
