/**
 * checkPatternAt as the source writes it: nested loops over aisles, repetitions, rows
 * and cells, driving a shared cursor, two mutable contexts and the count-match tallies,
 * proved to compute what CheckPattern specifies.
 */
module PatternMatcher {
  import opened Wrappers
  import opened Minecraft
  import opened PatternMatchContext
  import opened BlockWorldState
  import opened PatternGeometry
  import opened BlockPatterns
  import opened PatternSweep

  /** The scratch the objects of a match attempt currently hold. */
  ghost function ScratchOf(m: MutablePatternMatchContext, l: MutablePatternMatchContext, counts: array<int>): Scratch
    reads m, l, counts
  {
    Scratch(m.contextData, l.contextData, counts[..])
  }

  /** The loop variables of checkPatternAt together with what its objects hold. */
  ghost function StateOf(c: int, r: int, z: int, minZ: int, findFirstAisle: bool,
                         m: MutablePatternMatchContext, l: MutablePatternMatchContext, counts: array<int>): SweepState
    reads m, l, counts
  {
    SweepState(c, r, z, minZ, findFirstAisle, ScratchOf(m, l, counts))
  }

  /** What is left of a slice once row `b` has produced outcome `o`. */
  ghost function AfterRow(site: MatchSite, c: nat, b: nat, z: int, o: SliceOutcome): SliceOutcome
    requires Sweepable(site) && c < site.pattern.fingerLength && b < site.pattern.thumbLength
    requires |o.scratch.counts| == |site.pattern.countMatches|
  {
    if !o.passed then o else SliceFrom(site, c, b + 1, z, o.scratch)
  }

  /**
   * The count-match loop of one matching cell: every counted predicate is tested at the
   * cursor, with its side effects on the contexts, and its tally bumped when it holds.
   */
  method BumpCounts(site: MatchSite, worldState: MutableBlockWorldState, countMatchesCache: array<int>)
    requires worldState.pos != null && worldState.world == site.world
    requires worldState.matchContext != worldState.layerContext
    requires countMatchesCache.Length == |site.pattern.countMatches|
    modifies worldState.matchContext, worldState.layerContext, countMatchesCache
    ensures ScratchOf(worldState.matchContext, worldState.layerContext, countMatchesCache)
         == CountFrom(site, worldState.pos.Value(), 0,
                      old(ScratchOf(worldState.matchContext, worldState.layerContext, countMatchesCache)))
  {
    ghost var at := worldState.pos.Value();
    ghost var start := ScratchOf(worldState.matchContext, worldState.layerContext, countMatchesCache);
    for i := 0 to countMatchesCache.Length
      invariant CountFrom(site, at, i, ScratchOf(worldState.matchContext, worldState.layerContext, countMatchesCache))
             == CountFrom(site, at, 0, start)
    {
      ghost var s := ScratchOf(worldState.matchContext, worldState.layerContext, countMatchesCache);
      assert worldState.View() == BlockView(site.world, at, s.matchContext, s.layerContext);
      var verdict := site.pattern.countMatches[i].counted.test(worldState.View());
      worldState.matchContext.contextData := verdict.matchContext;
      worldState.layerContext.contextData := verdict.layerContext;
      if verdict.passed {
        countMatchesCache[i] := countMatchesCache[i] + 1;
      }
      assert ScratchOf(worldState.matchContext, worldState.layerContext, countMatchesCache)
          == Scratch(verdict.matchContext, verdict.layerContext,
                     if verdict.passed then s.counts[i := s.counts[i] + 1] else s.counts);
    }
  }

  /**
   * One cell: the cursor is moved to the cell's world position and the cell's predicate
   * tested there; when it holds, the count matches run.
   */
  method MatchCell(site: MatchSite, c: nat, b: nat, a: nat, x: int, y: int, z: int,
                   worldState: MutableBlockWorldState, blockPos: MutableBlockPos, countMatchesCache: array<int>)
    returns (passed: bool)
    requires Sweepable(site) && c < site.pattern.fingerLength && b < site.pattern.thumbLength && a < site.pattern.palmLength
    requires x == a - site.pattern.centerOffset.x && y == b - site.pattern.centerOffset.y
    requires worldState.world == site.world && worldState.matchContext != worldState.layerContext
    requires countMatchesCache.Length == |site.pattern.countMatches|
    modifies worldState, blockPos, worldState.matchContext, worldState.layerContext, countMatchesCache
    ensures var o := CellStep(site, c, b, a, z, old(ScratchOf(worldState.matchContext, worldState.layerContext, countMatchesCache)));
      passed == o.passed && ScratchOf(worldState.matchContext, worldState.layerContext, countMatchesCache) == o.scratch
  {
    var cellPredicate := site.pattern.blockMatches[c][b][a];
    SetActualRelativeOffset(blockPos, site.pattern.structureDir, x, y, z, site.facing);
    blockPos.SetPos(blockPos.x + site.centerPos.x, blockPos.y + site.centerPos.y, blockPos.z + site.centerPos.z);
    worldState.Update(blockPos);
    assert worldState.View().pos == CellPos(site, a, b, z);
    var verdict := cellPredicate.test(worldState.View());
    worldState.matchContext.contextData := verdict.matchContext;
    worldState.layerContext.contextData := verdict.layerContext;
    if !verdict.passed {
      return false;
    }
    BumpCounts(site, worldState, countMatchesCache);
    return true;
  }

  /** One slice of aisle `c` at offset `z`: rows and cells in order; the first failing cell ends it. */
  method MatchSlice(site: MatchSite, c: nat, z: int, worldState: MutableBlockWorldState,
                    blockPos: MutableBlockPos, countMatchesCache: array<int>)
    returns (passed: bool)
    requires Sweepable(site) && c < site.pattern.fingerLength
    requires worldState.world == site.world && worldState.matchContext != worldState.layerContext
    requires countMatchesCache.Length == |site.pattern.countMatches|
    modifies worldState, blockPos, worldState.matchContext, worldState.layerContext, countMatchesCache
    ensures var o := SliceFrom(site, c, 0, z, old(ScratchOf(worldState.matchContext, worldState.layerContext, countMatchesCache)));
      passed == o.passed && ScratchOf(worldState.matchContext, worldState.layerContext, countMatchesCache) == o.scratch
  {
    ghost var start := ScratchOf(worldState.matchContext, worldState.layerContext, countMatchesCache);
    var co := site.pattern.centerOffset;
    var b, y := 0, -co.y;
    while b < site.pattern.thumbLength
      invariant 0 <= b <= site.pattern.thumbLength && y == b - co.y
      invariant SliceFrom(site, c, b, z, ScratchOf(worldState.matchContext, worldState.layerContext, countMatchesCache))
             == SliceFrom(site, c, 0, z, start)
    {
      var a, x := 0, -co.x;
      while a < site.pattern.palmLength
        invariant 0 <= a <= site.pattern.palmLength && x == a - co.x
        invariant AfterRow(site, c, b, z, RowFrom(site, c, b, a, z, ScratchOf(worldState.matchContext, worldState.layerContext, countMatchesCache)))
               == SliceFrom(site, c, 0, z, start)
      {
        var cellPassed := MatchCell(site, c, b, a, x, y, z, worldState, blockPos, countMatchesCache);
        if !cellPassed {
          return false;
        }
        a, x := a + 1, x + 1;
      }
      b, y := b + 1, y + 1;
    }
    return true;
  }

  /**
   * How one pass of the repetition loop makes progress: it either spends a retreat, or stays
   * in the same aisle and finds the first aisle, or moves the leading search or the
   * repetition count on.
   */
  ghost predicate Advances(site: MatchSite, st: SweepState, next: SweepState)
    requires Sweepable(site) && 0 <= st.c < site.pattern.fingerLength && 0 <= next.c < site.pattern.fingerLength
  {
    || (0 <= RetreatBudget(site, st) && RetreatBudget(site, next) < RetreatBudget(site, st))
    || (&& RetreatBudget(site, next) == RetreatBudget(site, st) && next.c == st.c
        && ((next.findFirstAisle && !st.findFirstAisle)
            || (next.findFirstAisle == st.findFirstAisle && 0 <= Progress(site, st) && Progress(site, next) < Progress(site, st))))
  }

  /**
   * One pass of the repetition loop: the layer context is cleared and the slice tested. A
   * failure moves the leading search on, or retreats to aisle 0 one offset later with the
   * match context cleared when the aisle has not reached its minimum; a success marks the
   * first aisle found, advances the offset and runs the aisle's layer matcher. `stop` is
   * the `return null` of a failing layer matcher.
   */
  method RepetitionStep(site: MatchSite, c: int, r: int, z: int, minZ: int, findFirstAisle: bool,
                        worldState: MutableBlockWorldState, blockPos: MutableBlockPos, countMatchesCache: array<int>)
    returns (c': int, r': int, z': int, minZ': int, findFirstAisle': bool, stop: bool)
    requires Sweepable(site) && 0 <= c < site.pattern.fingerLength
    requires worldState.world == site.world && worldState.matchContext != worldState.layerContext
    requires countMatchesCache.Length == |site.pattern.countMatches|
    requires SweepInv(site, StateOf(c, r, z, minZ, findFirstAisle, worldState.matchContext, worldState.layerContext, countMatchesCache))
    requires if findFirstAisle then r < site.pattern.aisleRepetitions[c].max else z <= -site.pattern.centerOffset.minZ
    modifies worldState, blockPos, worldState.matchContext, worldState.layerContext, countMatchesCache
    ensures var st := old(StateOf(c, r, z, minZ, findFirstAisle, worldState.matchContext, worldState.layerContext, countMatchesCache));
      stop ==> Slices(site, st) == None
    ensures var st := old(StateOf(c, r, z, minZ, findFirstAisle, worldState.matchContext, worldState.layerContext, countMatchesCache));
      var next := StateOf(c', r', z', minZ', findFirstAisle', worldState.matchContext, worldState.layerContext, countMatchesCache);
      !stop ==> && 0 <= c' < site.pattern.fingerLength && SweepInv(site, next)
                && Slices(site, next) == Slices(site, st) && Advances(site, st, next)
  {
    var matchContext, layerContext := worldState.matchContext, worldState.layerContext;
    ghost var st := StateOf(c, r, z, minZ, findFirstAisle, matchContext, layerContext, countMatchesCache);
    c', r', z', minZ', findFirstAisle', stop := c, r, z, minZ, findFirstAisle, false;
    layerContext.ResetContext();
    assert ScratchOf(matchContext, layerContext, countMatchesCache) == st.scratch.(layerContext := map[]);
    var passed := MatchSlice(site, c, z, worldState, blockPos, countMatchesCache);
    ghost var attempt := SliceFrom(site, c, 0, z, st.scratch.(layerContext := map[]));
    SlicesUnfold(site, st);
    SlicesUnfoldPassed(site, st);
    assert passed == attempt.passed && ScratchOf(matchContext, layerContext, countMatchesCache) == attempt.scratch;
    ghost var expected: SweepState;
    if !passed {
      if findFirstAisle {
        if r < site.pattern.aisleRepetitions[c].min {
          // retreat: let the first aisle start one offset later
          r', c' := 0, 0;
          z' := minZ;
          minZ' := minZ + 1;
          matchContext.ResetContext();
          findFirstAisle' := false;
          expected := SweepState(0, 1, st.minZ, st.minZ + 1, false, attempt.scratch.(matchContext := map[]));
        } else {
          expected := st.(r := st.r + 1, scratch := attempt.scratch);
        }
      } else {
        z' := z + 1;
        expected := st.(r := st.r + 1, z := st.z + 1, scratch := attempt.scratch);
      }
    } else {
      findFirstAisle' := true;
      z' := z + 1;
      expected := st.(r := st.r + 1, z := st.z + 1, findFirstAisle := true, scratch := attempt.scratch);
      if c in site.pattern.layerMatchers {
        var layerPredicate := site.pattern.layerMatchers[c];
        var verdict := layerPredicate.test(layerContext.contextData);
        layerContext.contextData := verdict.context;
        if !verdict.passed {
          return c', r', z', minZ', findFirstAisle', true;
        }
        expected := expected.(scratch := expected.scratch.(layerContext := verdict.context));
      }
    }
    r' := r' + 1;
    assert StateOf(c', r', z', minZ', findFirstAisle', matchContext, layerContext, countMatchesCache) == expected;
  }

  /**
   * The checks after the sweep: every tally inside its range, then every validator in
   * order on the match context.
   */
  method FinalChecks(site: MatchSite, matchContext: MutablePatternMatchContext, countMatchesCache: array<int>)
    returns (passed: bool)
    requires countMatchesCache.Length == |site.pattern.countMatches|
    modifies matchContext
    ensures var spec := Finish(site, Scratch(old(matchContext.contextData), map[], countMatchesCache[..]));
      && (passed <==> spec.Some?)
      && (passed ==> matchContext.contextData == spec.value)
  {
    for i := 0 to countMatchesCache.Length
      invariant forall k | 0 <= k < i :: site.pattern.countMatches[k].range.isInsideOf(countMatchesCache[k])
    {
      var intRange := site.pattern.countMatches[i].range;
      if !intRange.isInsideOf(countMatchesCache[i]) {
        return false;
      }
    }
    ghost var start := matchContext.contextData;
    for i := 0 to |site.pattern.validators|
      invariant RunValidators(site.pattern.validators[i..], matchContext.contextData) == RunValidators(site.pattern.validators, start)
    {
      var verdict := site.pattern.validators[i].test(matchContext.contextData);
      matchContext.contextData := verdict.context;
      if !verdict.passed {
        return false;
      }
      assert site.pattern.validators[i..][1..] == site.pattern.validators[i + 1..];
    }
    return true;
  }

  /**
   * One pass of the aisle loop: the repetitions of aisle `c` from r = 0, then the check
   * against the aisle's minimum. `stop` is a `return null`; otherwise the sweep goes on to
   * the next aisle or, after a retreat, starts over with one retreat fewer left.
   */
  method MatchAisle(site: MatchSite, c: int, r: int, z: int, minZ: int, findFirstAisle: bool,
                    worldState: MutableBlockWorldState, blockPos: MutableBlockPos, countMatchesCache: array<int>)
    returns (c': int, r': int, z': int, minZ': int, findFirstAisle': bool, stop: bool)
    requires Sweepable(site) && 0 <= c < site.pattern.fingerLength
    requires worldState.world == site.world && worldState.matchContext != worldState.layerContext
    requires countMatchesCache.Length == |site.pattern.countMatches|
    requires SweepInv(site, StateOf(c, r, z, minZ, findFirstAisle, worldState.matchContext, worldState.layerContext, countMatchesCache))
    modifies worldState, blockPos, worldState.matchContext, worldState.layerContext, countMatchesCache
    ensures var st := old(StateOf(c, r, z, minZ, findFirstAisle, worldState.matchContext, worldState.layerContext, countMatchesCache));
      stop ==> Aisles(site, st) == None
    ensures var st := old(StateOf(c, r, z, minZ, findFirstAisle, worldState.matchContext, worldState.layerContext, countMatchesCache));
      var next := StateOf(c', r', z', minZ', findFirstAisle', worldState.matchContext, worldState.layerContext, countMatchesCache);
      !stop ==> && SweepInv(site, next) && Aisles(site, next) == Aisles(site, st)
                && (|| (0 <= RetreatBudget(site, st) && RetreatBudget(site, next) < RetreatBudget(site, st))
                    || (RetreatBudget(site, next) == RetreatBudget(site, st) && c' == c + 1))
  {
    var matchContext, layerContext := worldState.matchContext, worldState.layerContext;
    ghost var st := StateOf(c, r, z, minZ, findFirstAisle, matchContext, layerContext, countMatchesCache);
    ghost var budget0 := RetreatBudget(site, st);
    ghost var goal := Aisles(site, st);
    c', r', z', minZ', findFirstAisle' := c, 0, z, minZ, findFirstAisle;
    assert goal == Slices(site, StateOf(c', r', z', minZ', findFirstAisle', matchContext, layerContext, countMatchesCache));
    while if findFirstAisle' then r' < site.pattern.aisleRepetitions[c'].max else z' <= -site.pattern.centerOffset.minZ
      invariant 0 <= c' < site.pattern.fingerLength
      invariant SweepInv(site, StateOf(c', r', z', minZ', findFirstAisle', matchContext, layerContext, countMatchesCache))
      invariant Slices(site, StateOf(c', r', z', minZ', findFirstAisle', matchContext, layerContext, countMatchesCache)) == goal
      invariant || (c' == c && RetreatBudget(site, StateOf(c', r', z', minZ', findFirstAisle', matchContext, layerContext, countMatchesCache)) == budget0)
                || (0 <= budget0 && RetreatBudget(site, StateOf(c', r', z', minZ', findFirstAisle', matchContext, layerContext, countMatchesCache)) < budget0)
      decreases RetreatBudget(site, StateOf(c', r', z', minZ', findFirstAisle', matchContext, layerContext, countMatchesCache)),
                site.pattern.fingerLength - c', if findFirstAisle' then 0 else 1,
                Progress(site, StateOf(c', r', z', minZ', findFirstAisle', matchContext, layerContext, countMatchesCache))
    {
      c', r', z', minZ', findFirstAisle', stop := RepetitionStep(site, c', r', z', minZ', findFirstAisle', worldState, blockPos, countMatchesCache);
      if stop {
        return;
      }
    }
    if r' < site.pattern.aisleRepetitions[c'].min {
      return c', r', z', minZ', findFirstAisle', true;
    }
    c' := c' + 1;
    stop := false;
  }

  /**
   * checkPatternAt: null exactly when CheckPattern fails; otherwise a fresh match context
   * holding what CheckPattern computes.
   */
  method CheckPatternAt(pattern: BlockPattern, world: World, centerPos: Pos, facing: Facing)
    returns (result: MutablePatternMatchContext?)
    requires Ready(MatchSite(pattern, world, centerPos, facing))
    ensures var spec := CheckPattern(MatchSite(pattern, world, centerPos, facing));
      && (result == null <==> spec.None?)
      && (result != null ==> fresh(result) && result.contextData == spec.value)
  {
    var site := MatchSite(pattern, world, centerPos, facing);
    var matchContext := new MutablePatternMatchContext();
    var layerContext := new MutablePatternMatchContext();
    var worldState := new MutableBlockWorldState(world, matchContext, layerContext);
    var blockPos := new MutableBlockPos();
    var countMatchesCache := new int[|pattern.countMatches|](_ => 0);
    var findFirstAisle := false;
    var minZ := -pattern.centerOffset.maxZ;

    var c, z, r := 0, minZ, 0;
    minZ := minZ + 1;
    assert StateOf(c, r, z, minZ, findFirstAisle, matchContext, layerContext, countMatchesCache) == Initial(site);
    ghost var goal := Aisles(site, Initial(site));
    while c < pattern.fingerLength
      invariant 0 <= c
      invariant SweepInv(site, StateOf(c, r, z, minZ, findFirstAisle, matchContext, layerContext, countMatchesCache))
      invariant Aisles(site, StateOf(c, r, z, minZ, findFirstAisle, matchContext, layerContext, countMatchesCache)) == goal
      decreases RetreatBudget(site, StateOf(c, r, z, minZ, findFirstAisle, matchContext, layerContext, countMatchesCache)),
                pattern.fingerLength - c
    {
      var stop;
      c, r, z, minZ, findFirstAisle, stop := MatchAisle(site, c, r, z, minZ, findFirstAisle, worldState, blockPos, countMatchesCache);
      if stop {
        return null;
      }
    }

    var passed := FinalChecks(site, matchContext, countMatchesCache);
    if !passed {
      return null;
    }
    return matchContext;
  }
}
