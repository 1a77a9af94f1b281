/**
 * Properties of the matcher specification: where the cells it tests lie in the world,
 * what a successful match guarantees, and how a one-cell pattern behaves.
 */
module PatternProperties {
  import opened Wrappers
  import opened Minecraft
  import opened PatternMatchContext
  import opened BlockWorldState
  import opened PatternGeometry
  import opened BlockPatterns
  import opened PatternSweep

  /** The local origin goes nowhere: no axis receives anything but zero. */
  lemma RelativeOffsetOfOrigin(dirs: seq<RelativeDirection>, facing: Facing)
    requires |dirs| == 3 && SupportsAll(dirs, facing)
    ensures RelativeOffset(dirs, 0, 0, 0, facing) == Pos(0, 0, 0)
  {
    var p := RelativeOffset(dirs, 0, 0, 0, facing);
    forall a: Axis, n: nat | n <= 3
      ensures LastWritten(dirs, [0, 0, 0], facing, a, n) == 0
    {
      ZeroWritesZero(dirs, facing, a, n);
    }
    assert p.x == Component(p, X) && p.y == Component(p, Y) && p.z == Component(p, Z);
  }

  lemma {:induction false} ZeroWritesZero(dirs: seq<RelativeDirection>, facing: Facing, a: Axis, n: nat)
    requires n <= |dirs| == 3 && SupportsAll(dirs, facing)
    ensures LastWritten(dirs, [0, 0, 0], facing, a, n) == 0
  {
    if n > 0 {
      ZeroWritesZero(dirs, facing, a, n - 1);
    }
  }

  /** The centre cell of the slice at offset 0 is tested at the controller position itself. */
  lemma CenterCellAtController(site: MatchSite)
    requires Sweepable(site)
    ensures CellPos(site, site.pattern.centerOffset.x, site.pattern.centerOffset.y, 0) == site.centerPos
  {
    RelativeOffsetOfOrigin(site.pattern.structureDir, site.facing);
  }

  /** With distinct axes, different cells of different slices are always tested at different world positions. */
  lemma CellsDistinct(site: MatchSite, a1: int, b1: int, z1: int, a2: int, b2: int, z2: int)
    requires Sweepable(site) && DistinctAxes(site.pattern.structureDir, site.facing)
    requires CellPos(site, a1, b1, z1) == CellPos(site, a2, b2, z2)
    ensures a1 == a2 && b1 == b2 && z1 == z2
  {
    var co := site.pattern.centerOffset;
    var dirs := site.pattern.structureDir;
    var p := RelativeOffset(dirs, a1 - co.x, b1 - co.y, z1, site.facing);
    var q := RelativeOffset(dirs, a2 - co.x, b2 - co.y, z2, site.facing);
    assert Plus(p, site.centerPos) == Plus(q, site.centerPos);
    assert p == q;
    RelativeOffsetInjective(dirs, site.facing, a1 - co.x, b1 - co.y, z1, a2 - co.x, b2 - co.y, z2);
  }

  /** With distinct axes, each slice lies one block further along structureDir[2] than the one before. */
  lemma SlicesStepAlongAisle(site: MatchSite, a: int, b: int, z: int)
    requires Sweepable(site) && DistinctAxes(site.pattern.structureDir, site.facing)
    ensures CellPos(site, a, b, z + 1) == Offset(CellPos(site, a, b, z), AxisFacing(site.pattern.structureDir, site.facing, 2))
  {
    var co := site.pattern.centerOffset;
    NextSliceOneStepAlong(site.pattern.structureDir, a - co.x, b - co.y, z, site.facing);
  }

  /**
   * A successful match passed the final checks: every tally of the sweep lies in its
   * range, and the returned context is what the validators left of the sweep's match context.
   */
  lemma SuccessPassedFinalChecks(site: MatchSite)
    requires Ready(site) && CheckPattern(site).Some?
    ensures var swept := Aisles(site, Initial(site));
      && swept.Some?
      && CountsInRange(site.pattern.countMatches, swept.value.counts)
      && RunValidators(site.pattern.validators, swept.value.matchContext) == CheckPattern(site)
  {
  }

  /** The tallies of a whole sweep only grow from zero: a retreat does not clear them. */
  lemma SweepTalliesNonNegative(site: MatchSite)
    requires Ready(site) && Aisles(site, Initial(site)).Some?
    ensures var s := Aisles(site, Initial(site)).value;
      |s.counts| == |site.pattern.countMatches| && forall k | 0 <= k < |s.counts| :: 0 <= s.counts[k]
  {
  }

  /** A pattern of a single centre cell, repeated exactly once, with no counts, layer matchers or validators. */
  ghost predicate OneCellSite(site: MatchSite, p: BlockPredicate) {
    && p.isCenter
    && |site.pattern.structureDir| == 3
    && SupportsAll(site.pattern.structureDir, site.facing)
    && site.pattern == BlockPattern([[[p]]], [], map[], [], 1, 1, 1, site.pattern.structureDir,
                                    [Repetition(1, 1)], CenterOffset(0, 0, 0, 0, 0))
  }

  /**
   * For a one-cell pattern the answer is the context the cell's predicate leaves, whether or
   * not the predicate holds: a failed leading slice still counts as a repetition, and with
   * no later aisle nothing rejects the pattern.
   */
  lemma OneCellPatternAlwaysMatches(site: MatchSite, p: BlockPredicate)
    requires OneCellSite(site, p)
    ensures Ready(site)
    ensures CheckPattern(site) == Some(p.test(BlockView(site.world, site.centerPos, map[], map[])).matchContext)
  {
    var v := p.test(BlockView(site.world, site.centerPos, map[], map[]));
    RelativeOffsetOfOrigin(site.pattern.structureDir, site.facing);
    assert CellPos(site, 0, 0, 0) == site.centerPos;
    var st0 := Initial(site);
    assert st0 == SweepState(0, 0, 0, 1, false, Scratch(map[], map[], []));
    var s1 := Scratch(v.matchContext, v.layerContext, []);
    assert CellStep(site, 0, 0, 0, 0, st0.scratch) == SliceOutcome(v.passed, s1);
    assert RowFrom(site, 0, 0, 1, 0, s1) == SliceOutcome(true, s1);
    assert SliceFrom(site, 0, 1, 0, s1) == SliceOutcome(true, s1);
    assert SliceFrom(site, 0, 0, 0, st0.scratch) == SliceOutcome(v.passed, s1);
    var next := SweepState(0, 1, 1, 1, v.passed, s1);
    assert Aisles(site, next.(c := 1)) == Some(s1);
    assert Slices(site, next) == Some(s1);
    assert Slices(site, st0) == Some(s1);
  }

  /** A predicate that fails whatever the block and the contexts. */
  ghost predicate NeverMatches(p: BlockPredicate) {
    forall v: BlockView :: !p.test(v).passed
  }

  /** How many slices the leading search tries from offset `z`: those up to -centerOffset.minZ. */
  ghost function WindowFrom(site: MatchSite, z: int): nat {
    if z > Lead(site) then 0 else Lead(site) - z + 1
  }

  /** A slice whose first cell never matches fails there, and no tally moves. */
  lemma SliceMissesAtFirstCell(site: MatchSite, c: nat, z: int, s: Scratch)
    requires Sweepable(site) && c < site.pattern.fingerLength
    requires 0 < site.pattern.thumbLength && 0 < site.pattern.palmLength
    requires |s.counts| == |site.pattern.countMatches|
    requires NeverMatches(site.pattern.blockMatches[c][0][0])
    ensures !SliceFrom(site, c, 0, z, s).passed && SliceFrom(site, c, 0, z, s).scratch.counts == s.counts
  {
    var o := CellStep(site, c, 0, 0, z, s);
    assert !o.passed;
    assert RowFrom(site, c, 0, 0, z, s) == o;
  }

  /**
   * While the first aisle is still looked for and aisle 0 never matches, every offset left
   * in the window is tried and counted as a repetition; the sweep then goes on to aisle 1
   * with the first aisle still not found.
   */
  lemma {:induction false} LeadSlicesMiss(site: MatchSite, st: SweepState)
    requires Sweepable(site) && SweepInv(site, st) && st.c == 0 < site.pattern.fingerLength && !st.findFirstAisle
    requires 0 < site.pattern.thumbLength && 0 < site.pattern.palmLength
    requires NeverMatches(site.pattern.blockMatches[0][0][0])
    ensures var o := Slices(site, st);
      && (o.Some? <==> st.r + WindowFrom(site, st.z) >= site.pattern.aisleRepetitions[0].min && RestOptional(site, 1))
      && (o.Some? ==> o.value.counts == st.scratch.counts)
    decreases WindowFrom(site, st.z)
  {
    if st.z <= Lead(site) {
      var attempt := SliceFrom(site, 0, 0, st.z, st.scratch.(layerContext := map[]));
      SliceMissesAtFirstCell(site, 0, st.z, st.scratch.(layerContext := map[]));
      var next := st.(r := st.r + 1, z := st.z + 1, scratch := attempt.scratch);
      SlicesUnfold(site, st);
      LeadSlicesMiss(site, next);
    }
  }

  /**
   * When aisle 0's first cell never matches, the leading search tries all
   * centerOffset.maxZ - centerOffset.minZ + 1 offsets without finding the first aisle and
   * counts each as a repetition. The pattern then matches exactly when that many
   * repetitions are enough for aisle 0 and every later aisle may be absent, and no tally
   * was bumped.
   */
  lemma LeadingSearchMisses(site: MatchSite)
    requires Ready(site) && 0 < site.pattern.fingerLength
    requires 0 < site.pattern.thumbLength && 0 < site.pattern.palmLength
    requires NeverMatches(site.pattern.blockMatches[0][0][0])
    ensures var o := Aisles(site, Initial(site));
      var co := site.pattern.centerOffset;
      && (o.Some? <==> (if co.maxZ >= co.minZ then co.maxZ - co.minZ + 1 else 0) >= site.pattern.aisleRepetitions[0].min
                       && RestOptional(site, 1))
      && (o.Some? ==> forall k | 0 <= k < |o.value.counts| :: o.value.counts[k] == 0)
  {
    var st := Initial(site);
    LeadSlicesMiss(site, st.(r := 0));
  }

  /**
   * The states the sweep passes through on its way to aisle `c`, seen from aisle `c`:
   * not past it, never at it with a repetition counted, and past aisle 0 only with the
   * first aisle found or the leading window used up.
   */
  ghost predicate BeforeAisle(site: MatchSite, st: SweepState, c: nat)
    requires Sweepable(site) && c < site.pattern.fingerLength
  {
    && st.c <= c
    && (st.c == c ==> st.r < site.pattern.aisleRepetitions[c].min)
    && (st.c >= 1 && !st.findFirstAisle ==> st.z > Lead(site))
  }

  lemma {:induction false} AislesMissAisle(site: MatchSite, st: SweepState, c: nat)
    requires Sweepable(site) && SweepInv(site, st) && 1 <= c < site.pattern.fingerLength
    requires 0 < site.pattern.thumbLength && 0 < site.pattern.palmLength
    requires 1 <= site.pattern.aisleRepetitions[c].min && NeverMatches(site.pattern.blockMatches[c][0][0])
    requires st.c <= c && (st.c >= 1 && !st.findFirstAisle ==> st.z > Lead(site))
    ensures Aisles(site, st) == None
    decreases RetreatBudget(site, st), site.pattern.fingerLength - st.c, 1, 0, 0, 0
  {
    SlicesMissAisle(site, st.(r := 0), c);
  }

  lemma {:induction false} SlicesMissAisle(site: MatchSite, st: SweepState, c: nat)
    requires Sweepable(site) && SweepInv(site, st) && 1 <= c < site.pattern.fingerLength
    requires 0 < site.pattern.thumbLength && 0 < site.pattern.palmLength
    requires 1 <= site.pattern.aisleRepetitions[c].min && NeverMatches(site.pattern.blockMatches[c][0][0])
    requires BeforeAisle(site, st, c)
    ensures Slices(site, st) == None
    decreases RetreatBudget(site, st), site.pattern.fingerLength - st.c, 0,
              if st.findFirstAisle then 0 else 1, Progress(site, st), 1
  {
    var rep := site.pattern.aisleRepetitions[st.c];
    if !(if st.findFirstAisle then st.r < rep.max else st.z <= Lead(site)) {
      if st.r >= rep.min {
        AislesMissAisle(site, st.(c := st.c + 1), c);
      }
    } else {
      var attempt := SliceFrom(site, st.c, 0, st.z, st.scratch.(layerContext := map[]));
      if st.c == c {
        SliceMissesAtFirstCell(site, c, st.z, st.scratch.(layerContext := map[]));
      }
      if !attempt.passed {
        FailedSliceMissesAisle(site, st, c);
      } else {
        MatchedSliceMissesAisle(site, st, c);
      }
    }
  }

  /** A failing slice on the way to aisle `c`: the leading search moves on, the loop retreats or counts a repetition. */
  lemma {:induction false} FailedSliceMissesAisle(site: MatchSite, st: SweepState, c: nat)
    requires Sweepable(site) && SweepInv(site, st) && 1 <= c < site.pattern.fingerLength
    requires 0 < site.pattern.thumbLength && 0 < site.pattern.palmLength
    requires 1 <= site.pattern.aisleRepetitions[c].min && NeverMatches(site.pattern.blockMatches[c][0][0])
    requires BeforeAisle(site, st, c)
    requires if st.findFirstAisle then st.r < site.pattern.aisleRepetitions[st.c].max else st.z <= Lead(site)
    requires !SliceFrom(site, st.c, 0, st.z, st.scratch.(layerContext := map[])).passed
    ensures Slices(site, st) == None
    decreases RetreatBudget(site, st), site.pattern.fingerLength - st.c, 0,
              if st.findFirstAisle then 0 else 1, Progress(site, st), 0
  {
    var attempt := SliceFrom(site, st.c, 0, st.z, st.scratch.(layerContext := map[]));
    SlicesUnfold(site, st);
    if st.findFirstAisle {
      if st.r < site.pattern.aisleRepetitions[st.c].min {
        var back := SweepState(0, 1, st.minZ, st.minZ + 1, false, attempt.scratch.(matchContext := map[]));
        SlicesMissAisle(site, back, c);
      } else {
        var next := st.(r := st.r + 1, scratch := attempt.scratch);
        SlicesMissAisle(site, next, c);
      }
    } else {
      var next := st.(r := st.r + 1, z := st.z + 1, scratch := attempt.scratch);
      SlicesMissAisle(site, next, c);
    }
  }

  /** A matching slice on the way to aisle `c`, which is never aisle `c` itself. */
  lemma {:induction false} MatchedSliceMissesAisle(site: MatchSite, st: SweepState, c: nat)
    requires Sweepable(site) && SweepInv(site, st) && 1 <= c < site.pattern.fingerLength
    requires 0 < site.pattern.thumbLength && 0 < site.pattern.palmLength
    requires 1 <= site.pattern.aisleRepetitions[c].min && NeverMatches(site.pattern.blockMatches[c][0][0])
    requires BeforeAisle(site, st, c) && st.c < c
    requires if st.findFirstAisle then st.r < site.pattern.aisleRepetitions[st.c].max else st.z <= Lead(site)
    requires SliceFrom(site, st.c, 0, st.z, st.scratch.(layerContext := map[])).passed
    ensures Slices(site, st) == None
    decreases RetreatBudget(site, st), site.pattern.fingerLength - st.c, 0,
              if st.findFirstAisle then 0 else 1, Progress(site, st), 0
  {
    var attempt := SliceFrom(site, st.c, 0, st.z, st.scratch.(layerContext := map[]));
    var next := st.(r := st.r + 1, z := st.z + 1, findFirstAisle := true, scratch := attempt.scratch);
    SlicesUnfoldPassed(site, st);
    if st.c in site.pattern.layerMatchers {
      var lv := site.pattern.layerMatchers[st.c].test(attempt.scratch.layerContext);
      if lv.passed {
        var next' := next.(scratch := next.scratch.(layerContext := lv.context));
        SlicesMissAisle(site, next', c);
      }
    } else {
      SlicesMissAisle(site, next, c);
    }
  }

  /**
   * An aisle after the first that must appear at least once, but whose first cell never
   * matches, rejects the pattern wherever it is checked: each time the sweep reaches that
   * aisle it retreats or gives up, and a retreat only restarts the search for aisle 0. (For
   * aisle 0 itself this does not hold; see LeadingSearchMisses.)
   */
  lemma UnmatchableAisleFailsPattern(site: MatchSite, c: nat)
    requires Ready(site) && 1 <= c < site.pattern.fingerLength
    requires 0 < site.pattern.thumbLength && 0 < site.pattern.palmLength
    requires 1 <= site.pattern.aisleRepetitions[c].min && NeverMatches(site.pattern.blockMatches[c][0][0])
    ensures CheckPattern(site) == None
  {
    AislesMissAisle(site, Initial(site), c);
  }
}
