/**
 * The data of a BlockPattern and its construction: the three-dimensional predicate array,
 * the count matches, layer matchers, validators, axis directions and aisle repetitions,
 * and the scan that locates the pattern's centre.
 */
module BlockPatterns {
  import opened Wrappers
  import opened Minecraft
  import opened PatternMatchContext
  import opened BlockWorldState
  import opened PatternGeometry

  /** What testing a block predicate yields: its answer and both contexts after its side effects. */
  datatype Verdict = Verdict(passed: bool, matchContext: Ctx, layerContext: Ctx)

  /** A Predicate<IBlockWorldState>; `isCenter` marks a PatternCenterPredicate. */
  datatype BlockPredicate = BlockPredicate(test: BlockView -> Verdict, isCenter: bool)

  /** What testing a context predicate yields: its answer and the context after its side effects. */
  datatype ContextVerdict = ContextVerdict(passed: bool, context: Ctx)

  /** A Predicate<IPatternMatchContext>: a layer matcher or a validator. */
  datatype ContextPredicate = ContextPredicate(test: Ctx -> ContextVerdict)

  /** gregtech.api.util.IntRange, of which the matcher only uses isInsideOf. */
  datatype IntRange = IntRange(isInsideOf: int -> bool)

  /** One entry of countMatches: a predicate whose hits are tallied, and the range the tally must fall in. */
  datatype CountMatch = CountMatch(counted: BlockPredicate, range: IntRange)

  /** One row of aisleRepetitions: how often an aisle's slice must, and may, repeat. */
  datatype Repetition = Repetition(min: int, max: int)

  /**
   * centerOffset: where the centre predicate sits in the array, and the minimum and maximum
   * number of slices the aisles before it can span.
   */
  datatype CenterOffset = CenterOffset(x: int, y: int, z: int, minZ: int, maxZ: int)

  /** blockMatches, indexed [z][y][x]. */
  type Predicates = seq<seq<seq<BlockPredicate>>>

  datatype BlockPattern = BlockPattern(
    blockMatches: Predicates,
    countMatches: seq<CountMatch>,
    layerMatchers: map<int, ContextPredicate>,
    validators: seq<ContextPredicate>,
    fingerLength: nat,
    thumbLength: nat,
    palmLength: nat,
    structureDir: seq<RelativeDirection>,
    aisleRepetitions: seq<Repetition>,
    centerOffset: CenterOffset)
  {
    /** What the constructor establishes: dimensions taken from the array, and the first centre located. */
    ghost predicate Valid() {
      && Shaped()
      && (var d := Dimensions(blockMatches);
          fingerLength == d.0 && thumbLength == d.1 && palmLength == d.2)
      && IsFirstCenter(blockMatches, fingerLength, thumbLength, palmLength, aisleRepetitions, centerOffset)
    }

    /** Every cell the matcher visits exists, and every aisle has a repetition range. */
    predicate Shaped() {
      && Covers(blockMatches, fingerLength, thumbLength, palmLength)
      && |aisleRepetitions| >= fingerLength
    }
  }

  /** Every cell [z][y][x] with z < finger, y < thumb and x < palm exists in the array. */
  predicate Covers(preds: Predicates, finger: nat, thumb: nat, palm: nat) {
    && finger <= |preds|
    && forall z | 0 <= z < finger ::
         && thumb <= |preds[z]|
         && forall y | 0 <= y < thumb :: palm <= |preds[z][y]|
  }

  /** Every aisle has the same number of rows and every row the same number of cells. */
  predicate Rectangular(preds: Predicates) {
    forall z | 0 <= z < |preds| ::
      && |preds[z]| == |preds[0]|
      && forall y | 0 <= y < |preds[z]| :: |preds[z][y]| == |preds[0][0]|
  }

  /**
   * fingerLength, thumbLength and palmLength as the constructor reads them off the first
   * aisle and its first row; a rectangular array is covered by them exactly.
   */
  function Dimensions(preds: Predicates): (d: (nat, nat, nat))
    ensures d.0 == |preds|
    ensures d.1 == (if |preds| > 0 then |preds[0]| else 0)
    ensures d.2 == (if d.1 > 0 then |preds[0][0]| else 0)
    ensures Rectangular(preds) ==> Covers(preds, d.0, d.1, d.2)
  {
    var finger := |preds|;
    var thumb := if finger > 0 then |preds[0]| else 0;
    var palm := if thumb > 0 then |preds[0][0]| else 0;
    (finger, thumb, palm)
  }

  /** The slices the first `n` aisles span at least. */
  function SumMin(reps: seq<Repetition>, n: nat): int
    requires n <= |reps|
  {
    if n == 0 then 0 else SumMin(reps, n - 1) + reps[n - 1].min
  }

  /** The slices the first `n` aisles span at most. */
  function SumMax(reps: seq<Repetition>, n: nat): int
    requires n <= |reps|
  {
    if n == 0 then 0 else SumMax(reps, n - 1) + reps[n - 1].max
  }

  /** The scan order of the centre search: x outermost, then y, then z. */
  predicate ScannedBefore(x1: int, y1: int, z1: int, x2: int, y2: int, z2: int) {
    x1 < x2 || (x1 == x2 && (y1 < y2 || (y1 == y2 && z1 < z2)))
  }

  ghost predicate NoCenter(preds: Predicates, finger: nat, thumb: nat, palm: nat)
    requires Covers(preds, finger, thumb, palm)
  {
    forall x, y, z | 0 <= x < palm && 0 <= y < thumb && 0 <= z < finger :: !preds[z][y][x].isCenter
  }

  /**
   * `co` names the first centre predicate in scan order, with the repetition sums of the
   * aisles before its aisle.
   */
  ghost predicate IsFirstCenter(preds: Predicates, finger: nat, thumb: nat, palm: nat,
                                reps: seq<Repetition>, co: CenterOffset)
    requires Covers(preds, finger, thumb, palm) && finger <= |reps|
  {
    && 0 <= co.x < palm && 0 <= co.y < thumb && 0 <= co.z < finger
    && preds[co.z][co.y][co.x].isCenter
    && (forall x, y, z | 0 <= x < palm && 0 <= y < thumb && 0 <= z < finger && ScannedBefore(x, y, z, co.x, co.y, co.z) ::
          !preds[z][y][x].isCenter)
    && co.minZ == SumMin(reps, co.z)
    && co.maxZ == SumMax(reps, co.z)
  }

  /**
   * initializeCenterOffsets: scans x, then y, then z, keeping the running repetition sums,
   * and stops at the first centre predicate. None when the array has no centre.
   */
  method InitializeCenterOffsets(preds: Predicates, finger: nat, thumb: nat, palm: nat, reps: seq<Repetition>)
    returns (centerOffset: Option<CenterOffset>)
    requires Covers(preds, finger, thumb, palm) && finger <= |reps|
    ensures centerOffset.Some? ==> IsFirstCenter(preds, finger, thumb, palm, reps, centerOffset.value)
    ensures centerOffset.None? ==> NoCenter(preds, finger, thumb, palm)
  {
    var x := 0;
    while x < palm
      invariant 0 <= x <= palm
      invariant forall x', y', z' | 0 <= x' < x && 0 <= y' < thumb && 0 <= z' < finger :: !preds[z'][y'][x'].isCenter
    {
      var y := 0;
      while y < thumb
        invariant 0 <= y <= thumb
        invariant forall y', z' | 0 <= y' < y && 0 <= z' < finger :: !preds[z'][y'][x].isCenter
      {
        var z, minZ, maxZ := 0, 0, 0;
        while z < finger
          invariant 0 <= z <= finger
          invariant minZ == SumMin(reps, z) && maxZ == SumMax(reps, z)
          invariant forall z' | 0 <= z' < z :: !preds[z'][y][x].isCenter
        {
          if preds[z][y][x].isCenter {
            return Some(CenterOffset(x, y, z, minZ, maxZ));
          }
          minZ, maxZ, z := minZ + reps[z].min, maxZ + reps[z].max, z + 1;
        }
        y := y + 1;
      }
      x := x + 1;
    }
    return None;
  }

  /** The first centre is unique: the centre offset is determined by the array and the repetitions. */
  lemma FirstCenterUnique(preds: Predicates, finger: nat, thumb: nat, palm: nat, reps: seq<Repetition>,
                          co1: CenterOffset, co2: CenterOffset)
    requires Covers(preds, finger, thumb, palm) && finger <= |reps|
    requires IsFirstCenter(preds, finger, thumb, palm, reps, co1)
    requires IsFirstCenter(preds, finger, thumb, palm, reps, co2)
    ensures co1 == co2
  {
  }

  /**
   * The BlockPattern constructor: copies its arguments, reads the dimensions off the array
   * and locates the centre, failing with an IllegalArgumentException when there is none.
   */
  method NewBlockPattern(predicatesIn: Predicates, countMatches: seq<CountMatch>,
                         layerMatchers: map<int, ContextPredicate>, validators: seq<ContextPredicate>,
                         structureDir: seq<RelativeDirection>, aisleRepetitions: seq<Repetition>)
    returns (r: Result<BlockPattern, string>)
    requires var d := Dimensions(predicatesIn); Covers(predicatesIn, d.0, d.1, d.2) && d.0 <= |aisleRepetitions|
    ensures var d := Dimensions(predicatesIn); r.Failure? <==> NoCenter(predicatesIn, d.0, d.1, d.2)
    ensures r.Failure? ==> r.error == "Didn't found center predicate"
    ensures r.Success? ==> r.value.Valid()
    ensures r.Success? ==>
      && r.value.blockMatches == predicatesIn && r.value.countMatches == countMatches
      && r.value.layerMatchers == layerMatchers && r.value.validators == validators
      && r.value.structureDir == structureDir && r.value.aisleRepetitions == aisleRepetitions
  {
    var d := Dimensions(predicatesIn);
    var found := InitializeCenterOffsets(predicatesIn, d.0, d.1, d.2, aisleRepetitions);
    if found.None? {
      return Failure("Didn't found center predicate");
    }
    r := Success(BlockPattern(predicatesIn, countMatches, layerMatchers, validators,
                              d.0, d.1, d.2, structureDir, aisleRepetitions, found.value));
  }
}
