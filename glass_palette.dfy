// The twelve-colour glass palette and the selectors built on it. The same
// list, the same `Block(list[i % 12])` lookup, the same coordinate-sum
// gradient and the same random sparkle appear in
// scripts/libraries/FunkyGlass.ts and scripts/libraries/ColorBlockSelector.ts;
// each is defined here once.
module GlassPalette {
  import opened Errors
  import opened Blocks
  import opened JsMath
  import opened Positions

  /** The stained glasses in the order every selector lists them. */
  const Colours: seq<Material> := [
    RedStainedGlass, OrangeStainedGlass, YellowStainedGlass, LimeStainedGlass,
    GreenStainedGlass, CyanStainedGlass, LightBlueStainedGlass, BlueStainedGlass,
    PurpleStainedGlass, MagentaStainedGlass, PinkStainedGlass, WhiteStainedGlass]

  /** `new Block(list[i % 12])`. JavaScript's remainder keeps the sign of
      `i`, and reading an array at a negative index gives undefined, which is
      `None` here; a negative multiple of 12 leaves remainder -0, which reads
      the first colour. */
  function IndexedGlass(i: int): (b: Option<Block>)
    ensures b.Some? <==> (i >= 0 || i % 12 == 0)
    ensures i >= 0 ==> b == Some(Block(Colours[i % 12]))
    ensures b.Some? ==> b.value.block in Colours
  {
    var k := Rem(i, 12);
    if 0 <= k < |Colours| then Some(Block(Colours[k])) else None
  }

  /** The lookup repeats every twelve indices. */
  lemma IndexedGlassPeriodic(i: int)
    requires i >= 0
    ensures IndexedGlass(i + 12) == IndexedGlass(i)
  {
    assert (i + 12) % 12 == i % 12;
  }

  /** Consecutive non-negative indices walk through the whole palette:
      among the twelve indices from any start is one for each colour. */
  lemma IndexedGlassCovers(start: nat, j: nat) returns (k: nat)
    requires j < 12
    ensures k < 12 && IndexedGlass(start + k) == Some(Block(Colours[j]))
  {
    var q, r := start / 12, start % 12;
    if r <= j {
      k := j - r;
      assert start + k == 12 * q + j;
    } else {
      k := j - r + 12;
      assert start + k == 12 * (q + 1) + j;
    }
    assert (start + k) % 12 == j;
  }

  /** The coordinate sum plus the tick: coolMaterial's `gradientFormula`
      and the index every gradient selector reads. */
  function CoordinateSum(p: Position, index: int): int
  {
    p.x + p.y + p.z + index
  }

  /** A step along any axis is worth one tick. */
  lemma CoordinateSumShift(p: Position, index: int)
    ensures CoordinateSum(Position(p.x + 1, p.y, p.z), index) == CoordinateSum(p, index + 1)
    ensures CoordinateSum(Position(p.x, p.y + 1, p.z), index) == CoordinateSum(p, index + 1)
    ensures CoordinateSum(Position(p.x, p.y, p.z + 1), index) == CoordinateSum(p, index + 1)
  {
  }

  /** FunkyGlass's `gradientFormula` and ColorBlockSelector's
      `selectByGradient`: the colour at the coordinate sum. */
  function Gradient(p: Position, index: int): (b: Option<Block>)
    ensures CoordinateSum(p, index) >= 0 ==>
      b == Some(Block(Colours[(p.x + p.y + p.z + index) % 12]))
  {
    IndexedGlass(CoordinateSum(p, index))
  }

  /** Twelve ticks later a non-negative gradient shows the same colour. */
  lemma GradientPeriodic(p: Position, index: int)
    requires CoordinateSum(p, index) >= 0
    ensures Gradient(p, index + 12) == Gradient(p, index)
  {
    IndexedGlassPeriodic(CoordinateSum(p, index));
  }

  /** `Math.random() > 0.9 ? base + Math.floor(Math.random() * 3) : base`,
      with the two random draws, each in [0, 1), given as parameters. */
  function Sparkle(base: int, draw1: real, draw2: real): (v: int)
    requires 0.0 <= draw1 < 1.0 && 0.0 <= draw2 < 1.0
    ensures v - base in {0, 1, 2}
    ensures draw1 <= 0.9 ==> v == base
  {
    if draw1 > 0.9 then base + (draw2 * 3.0).Floor else base
  }

  /** The sparkle formula of FunkyGlass and coolMaterial and
      `selectWithSparkle`: an index at most two above the coordinate sum. */
  function SparkleIndex(p: Position, index: int, draw1: real, draw2: real): (v: int)
    requires 0.0 <= draw1 < 1.0 && 0.0 <= draw2 < 1.0
    ensures CoordinateSum(p, index) <= v <= CoordinateSum(p, index) + 2
  {
    Sparkle(CoordinateSum(p, index), draw1, draw2)
  }
}

// The palette lookup with the sign dropped (scripts/libraries/coolMaterial.ts).
module CoolMaterial {
  import opened Errors
  import opened Blocks
  import opened JsMath
  import opened Positions
  import opened GlassPalette

  /** `materials[Math.abs(v % 12)]` for a formula value v. */
  function MaterialAt(v: int): (m: Material)
    ensures m in Colours
  {
    Colours[Abs(Rem(v, 12))]
  }

  /** `getMaterial(position, index, formula)`. */
  function GetMaterial(position: Position, index: int, formula: (Position, int) -> int): (m: Material)
    ensures m in Colours
    ensures m == MaterialAt(formula(position, index))
  {
    MaterialAt(formula(position, index))
  }

  /** Dropping the sign of the remainder makes v and -v pick the same
      colour. */
  lemma MaterialAtIgnoresSign(v: int)
    ensures MaterialAt(-v) == MaterialAt(v)
  {
  }

  /** For non-negative values the colour repeats every twelve. */
  lemma MaterialAtPeriodic(v: int)
    requires v >= 0
    ensures MaterialAt(v + 12) == MaterialAt(v)
    ensures MaterialAt(v) == Colours[v % 12]
  {
  }

  /** With the gradient formula, `getMaterial` agrees with the gradient
      selectors wherever those are defined. */
  lemma GradientMaterial(position: Position, index: int)
    requires CoordinateSum(position, index) >= 0
    ensures Some(Block(GetMaterial(position, index, CoordinateSum))) == Gradient(position, index)
  {
    MaterialAtPeriodic(CoordinateSum(position, index));
  }
}

// The selector record of scripts/textures/ColorBlockSelector.ts.
module DynamicBlocks {
  import opened Errors
  import opened Blocks
  import opened JsMath
  import opened Geometry
  import opened GlassPalette

  /** The selectors the record defines; the radial one is not modelled. */
  datatype SelectorName = GradientSelector | WaveSelector | SparkleSelector

  /** `calculateIndex(position, index, factor)`: the coordinate sum, with
      JavaScript's remainder by `factor` (1 when omitted). */
  function CalculateIndex(position: Point, index: int, factor: int := 1): (k: int)
    requires factor > 0
    ensures Abs(k) < factor
    ensures position.x + position.y + position.z + index >= 0 ==>
      k == (position.x + position.y + position.z + index) % factor
  {
    Rem(position.x + position.y + position.z + index, factor)
  }

  /** With the default factor the index is always 0. */
  lemma CalculateIndexDefault(position: Point, index: int)
    ensures CalculateIndex(position, index) == 0
  {
  }

  /** `funkyGlassSelectors[name](position, index)`, the sparkle selector's
      two random draws given as parameters. */
  function Select(name: SelectorName, position: Point, index: int, draw1: real, draw2: real): (b: Option<Block>)
    requires 0.0 <= draw1 < 1.0 && 0.0 <= draw2 < 1.0
  {
    match name
    case GradientSelector => IndexedGlass(CalculateIndex(position, index, |Colours|))
    case WaveSelector => IndexedGlass(CalculateIndex(position, index, |Colours|))
    case SparkleSelector =>
      var randomFactor := if draw1 > 0.9 then (draw2 * 3.0).Floor else 0;
      IndexedGlass(CalculateIndex(position, index) + randomFactor)
  }

  /** The wave selector is the gradient selector. */
  lemma WaveIsGradient(position: Point, index: int, draw1: real, draw2: real)
    requires 0.0 <= draw1 < 1.0 && 0.0 <= draw2 < 1.0
    ensures Select(WaveSelector, position, index, draw1, draw2) == Select(GradientSelector, position, index, draw1, draw2)
  {
  }

  /** On a non-negative coordinate sum the gradient selector shows the
      colour at that sum, twelve-periodic. */
  lemma GradientColour(position: Point, index: int, draw1: real, draw2: real)
    requires 0.0 <= draw1 < 1.0 && 0.0 <= draw2 < 1.0
    requires position.x + position.y + position.z + index >= 0
    ensures Select(GradientSelector, position, index, draw1, draw2) ==
      Some(Block(Colours[(position.x + position.y + position.z + index) % 12]))
  {
  }

  /** Whatever the position, the sparkle selector shows one of the first
      three colours, and the first one unless the first draw exceeds 0.9. */
  lemma SparkleColour(position: Point, index: int, draw1: real, draw2: real)
    requires 0.0 <= draw1 < 1.0 && 0.0 <= draw2 < 1.0
    ensures Select(SparkleSelector, position, index, draw1, draw2) in
      {Some(Block(Colours[0])), Some(Block(Colours[1])), Some(Block(Colours[2]))}
    ensures draw1 <= 0.9 ==> Select(SparkleSelector, position, index, draw1, draw2) == Some(Block(Colours[0]))
  {
    CalculateIndexDefault(position, index);
  }
}
