/**
 * What checkPatternAt computes, as functions: the sweep over aisles and their repeated
 * slices, with the retreat that lets the first aisle start later, followed by the count
 * and validator checks.
 */
module PatternSweep {
  import opened Wrappers
  import opened Minecraft
  import opened PatternMatchContext
  import opened BlockWorldState
  import opened PatternGeometry
  import opened BlockPatterns

  /** One call of checkPatternAt: the pattern, the world, the controller position and its facing. */
  datatype MatchSite = MatchSite(pattern: BlockPattern, world: World, centerPos: Pos, facing: Facing)

  /**
   * The calls checkPatternAt handles without an exception: a constructed pattern whose
   * three axis directions can be resolved against the facing.
   */
  ghost predicate Ready(site: MatchSite) {
    site.pattern.Valid() && Sweepable(site)
  }

  /** What the sweep relies on: the cells and repetitions it indexes exist, and the axes resolve. */
  predicate Sweepable(site: MatchSite) {
    && site.pattern.Shaped()
    && |site.pattern.structureDir| == 3
    && SupportsAll(site.pattern.structureDir, site.facing)
  }

  /** The mutable data of a match attempt: both contexts and countMatchesCache. */
  datatype Scratch = Scratch(matchContext: Ctx, layerContext: Ctx, counts: seq<int>)

  /** The result of testing one slice: whether every cell matched, and the scratch afterwards. */
  datatype SliceOutcome = SliceOutcome(passed: bool, scratch: Scratch)

  /**
   * The loop variables of checkPatternAt: aisle `c`, repetition `r`, slice offset `z`, the
   * next start offset `minZ` for a retreat, and whether the first aisle has been found.
   */
  datatype SweepState = SweepState(c: int, r: int, z: int, minZ: int, findFirstAisle: bool, scratch: Scratch)

  /**
   * The world position of cell (a, b) of slice offset `z`: the centre cell's local
   * coordinates are subtracted, the rest is turned by the facing and added to the centre.
   */
  ghost function CellPos(site: MatchSite, a: int, b: int, z: int): Pos
    requires Sweepable(site)
  {
    var co := site.pattern.centerOffset;
    Plus(RelativeOffset(site.pattern.structureDir, a - co.x, b - co.y, z, site.facing), site.centerPos)
  }

  /**
   * The count-match loop after cell `at` matched, from entry `i` on: every counted
   * predicate is tested in turn and its tally bumped when it holds. Tallies before `i`
   * stay, the others grow by at most one.
   */
  ghost function CountFrom(site: MatchSite, at: Pos, i: nat, s: Scratch): (r: Scratch)
    requires i <= |s.counts| == |site.pattern.countMatches|
    ensures |r.counts| == |s.counts|
    ensures forall k | 0 <= k < i :: r.counts[k] == s.counts[k]
    ensures forall k | i <= k < |s.counts| :: s.counts[k] <= r.counts[k] <= s.counts[k] + 1
    decreases |s.counts| - i
  {
    if i == |s.counts| then s
    else
      var v := site.pattern.countMatches[i].counted.test(BlockView(site.world, at, s.matchContext, s.layerContext));
      var counts := if v.passed then s.counts[i := s.counts[i] + 1] else s.counts;
      CountFrom(site, at, i + 1, Scratch(v.matchContext, v.layerContext, counts))
  }

  /** Whether tallies only grew from `s` to `t`. */
  ghost predicate TalliesGrew(s: Scratch, t: Scratch) {
    |t.counts| == |s.counts| && forall k | 0 <= k < |s.counts| :: s.counts[k] <= t.counts[k]
  }

  /**
   * Cell (a, b) of aisle `c`'s slice at offset `z`: its predicate is tested at the cell's
   * world position; when it holds, the count matches run there.
   */
  ghost function CellStep(site: MatchSite, c: nat, b: nat, a: nat, z: int, s: Scratch): (o: SliceOutcome)
    requires Sweepable(site) && c < site.pattern.fingerLength && b < site.pattern.thumbLength
    requires a < site.pattern.palmLength && |s.counts| == |site.pattern.countMatches|
    ensures o.passed == site.pattern.blockMatches[c][b][a].test(
      BlockView(site.world, CellPos(site, a, b, z), s.matchContext, s.layerContext)).passed
    ensures TalliesGrew(s, o.scratch)
    ensures !o.passed ==> o.scratch.counts == s.counts
  {
    var at := CellPos(site, a, b, z);
    var v := site.pattern.blockMatches[c][b][a].test(BlockView(site.world, at, s.matchContext, s.layerContext));
    var s1 := s.(matchContext := v.matchContext, layerContext := v.layerContext);
    if !v.passed then SliceOutcome(false, s1) else SliceOutcome(true, CountFrom(site, at, 0, s1))
  }

  /** Row `b` of aisle `c`'s slice at offset `z`, from cell `a` on: cells in order, stopping at the first that fails. */
  ghost function RowFrom(site: MatchSite, c: nat, b: nat, a: nat, z: int, s: Scratch): (o: SliceOutcome)
    requires Sweepable(site) && c < site.pattern.fingerLength && b < site.pattern.thumbLength
    requires a <= site.pattern.palmLength && |s.counts| == |site.pattern.countMatches|
    ensures TalliesGrew(s, o.scratch)
    decreases site.pattern.palmLength - a
  {
    if a == site.pattern.palmLength then SliceOutcome(true, s)
    else
      var o := CellStep(site, c, b, a, z, s);
      if !o.passed then o else RowFrom(site, c, b, a + 1, z, o.scratch)
  }

  /** The slice of aisle `c` at offset `z`, from row `b` on: rows in order, stopping at the first that fails. */
  ghost function SliceFrom(site: MatchSite, c: nat, b: nat, z: int, s: Scratch): (o: SliceOutcome)
    requires Sweepable(site) && c < site.pattern.fingerLength && b <= site.pattern.thumbLength
    requires |s.counts| == |site.pattern.countMatches|
    ensures TalliesGrew(s, o.scratch)
    decreases site.pattern.thumbLength - b
  {
    if b == site.pattern.thumbLength then SliceOutcome(true, s)
    else
      var o := RowFrom(site, c, b, 0, z, s);
      if !o.passed then o else SliceFrom(site, c, b + 1, z, o.scratch)
  }

  /** The last offset at which the first aisle may still be looked for: -centerOffset.minZ. */
  ghost function Lead(site: MatchSite): int {
    -site.pattern.centerOffset.minZ
  }

  /**
   * What holds of the loop variables throughout: once the first aisle is found, the next
   * retreat offset is at most one past the leading window; while it is not, the slice
   * offset is at least the last retreat offset.
   */
  ghost predicate SweepInv(site: MatchSite, st: SweepState) {
    && 0 <= st.c <= site.pattern.fingerLength
    && |st.scratch.counts| == |site.pattern.countMatches|
    && (st.findFirstAisle ==> st.minZ <= Lead(site) + 1)
    && (!st.findFirstAisle ==> st.z >= st.minZ - 1)
  }

  /** How many more retreats can happen; every retreat uses one up. */
  ghost function RetreatBudget(site: MatchSite, st: SweepState): int {
    Lead(site) + 2 - st.minZ
  }

  /** Progress within the repetitions of aisle `c`: repetitions left, or leading offsets left. */
  ghost function Progress(site: MatchSite, st: SweepState): int
    requires Sweepable(site) && 0 <= st.c < site.pattern.fingerLength
  {
    if st.findFirstAisle then site.pattern.aisleRepetitions[st.c].max - st.r else Lead(site) + 1 - st.z
  }

  /** Every aisle from `c` on may be repeated zero times. */
  ghost predicate RestOptional(site: MatchSite, c: nat)
    requires Sweepable(site)
  {
    forall k | c <= k < site.pattern.fingerLength :: site.pattern.aisleRepetitions[k].min <= 0
  }

  /**
   * The outer loop at the top of aisle `c`: all aisles done leaves the scratch for the final
   * checks; otherwise the repetitions of aisle `c` start from r = 0.
   */
  ghost function Aisles(site: MatchSite, st: SweepState): (o: Option<Scratch>)
    requires Sweepable(site) && SweepInv(site, st)
    ensures o.Some? ==> TalliesGrew(st.scratch, o.value)
    ensures !st.findFirstAisle && st.z > Lead(site) ==>
      && (o.Some? <==> RestOptional(site, st.c))
      && (o.Some? ==> o.value == st.scratch)
    decreases RetreatBudget(site, st), site.pattern.fingerLength - st.c, 1, 0, 0
  {
    if st.c == site.pattern.fingerLength then Some(st.scratch)
    else Slices(site, st.(r := 0))
  }

  /**
   * The repetition loop of aisle `c`. Before the first aisle is found, slices are tried at
   * offsets up to -centerOffset.minZ; afterwards up to `max` repetitions. A failing slice
   * moves the leading search one offset on; after the first aisle was found it either
   * retreats (fewer than `min` repetitions so far: start over from aisle 0 one offset later,
   * with the match context cleared) or just counts as a repetition. A matching slice
   * advances the offset and runs the aisle's layer matcher, whose failure ends the match.
   * The loop ends with a failure when fewer than `min` repetitions were made.
   */
  ghost function Slices(site: MatchSite, st: SweepState): (o: Option<Scratch>)
    requires Sweepable(site) && SweepInv(site, st) && st.c < site.pattern.fingerLength
    ensures o.Some? ==> TalliesGrew(st.scratch, o.value)
    ensures !st.findFirstAisle && st.z > Lead(site) ==>
      && (o.Some? <==> st.r >= site.pattern.aisleRepetitions[st.c].min && RestOptional(site, st.c + 1))
      && (o.Some? ==> o.value == st.scratch)
    decreases RetreatBudget(site, st), site.pattern.fingerLength - st.c, 0,
              if st.findFirstAisle then 0 else 1, Progress(site, st)
  {
    var rep := site.pattern.aisleRepetitions[st.c];
    if !(if st.findFirstAisle then st.r < rep.max else st.z <= Lead(site)) then
      if st.r < rep.min then None else Aisles(site, st.(c := st.c + 1))
    else
      var attempt := SliceFrom(site, st.c, 0, st.z, st.scratch.(layerContext := map[]));
      if !attempt.passed then
        if st.findFirstAisle then
          if st.r < rep.min then
            Slices(site, SweepState(0, 1, st.minZ, st.minZ + 1, false, attempt.scratch.(matchContext := map[])))
          else
            Slices(site, st.(r := st.r + 1, scratch := attempt.scratch))
        else
          Slices(site, st.(r := st.r + 1, z := st.z + 1, scratch := attempt.scratch))
      else
        var next := st.(r := st.r + 1, z := st.z + 1, findFirstAisle := true, scratch := attempt.scratch);
        if st.c in site.pattern.layerMatchers then
          var lv := site.pattern.layerMatchers[st.c].test(attempt.scratch.layerContext);
          if !lv.passed then None
          else Slices(site, next.(scratch := next.scratch.(layerContext := lv.context)))
        else
          Slices(site, next)
  }

  /** Every tally lies in its count match's range. */
  ghost predicate CountsInRange(countMatches: seq<CountMatch>, counts: seq<int>)
    requires |counts| == |countMatches|
  {
    forall i | 0 <= i < |counts| :: countMatches[i].range.isInsideOf(counts[i])
  }

  /** The validators in order, each seeing the context the previous one left; the first failure ends the match. */
  ghost function RunValidators(validators: seq<ContextPredicate>, ctx: Ctx): Option<Ctx>
  {
    if validators == [] then Some(ctx)
    else
      var v := validators[0].test(ctx);
      if !v.passed then None else RunValidators(validators[1..], v.context)
  }

  /** The final checks: tallies in range, then the validators on the match context. */
  ghost function Finish(site: MatchSite, s: Scratch): Option<Ctx>
    requires |s.counts| == |site.pattern.countMatches|
  {
    if !CountsInRange(site.pattern.countMatches, s.counts) then None
    else RunValidators(site.pattern.validators, s.matchContext)
  }

  /** The loop variables on entry: z = -centerOffset.maxZ, the next retreat offset one later, nothing found or counted. */
  ghost function Initial(site: MatchSite): SweepState {
    var z := -site.pattern.centerOffset.maxZ;
    SweepState(0, 0, z, z + 1, false, Scratch(map[], map[], seq(|site.pattern.countMatches|, _ => 0)))
  }

  /** checkPatternAt's answer: the final match context, or None where it returns null. */
  ghost function CheckPattern(site: MatchSite): Option<Ctx>
    requires Ready(site)
  {
    match Aisles(site, Initial(site))
    case None => None
    case Some(s) => Finish(site, s)
  }

  /** One pass of the repetition loop, as Slices takes it: the state the sweep goes on from, case by case. */
  lemma SlicesUnfold(site: MatchSite, st: SweepState)
    requires Sweepable(site) && SweepInv(site, st) && 0 <= st.c < site.pattern.fingerLength
    requires if st.findFirstAisle then st.r < site.pattern.aisleRepetitions[st.c].max else st.z <= Lead(site)
    ensures var attempt := SliceFrom(site, st.c, 0, st.z, st.scratch.(layerContext := map[]));
      var rep := site.pattern.aisleRepetitions[st.c];
      && (!attempt.passed && st.findFirstAisle && st.r < rep.min ==>
            Slices(site, st) == Slices(site, SweepState(0, 1, st.minZ, st.minZ + 1, false, attempt.scratch.(matchContext := map[]))))
      && (!attempt.passed && st.findFirstAisle && st.r >= rep.min ==>
            Slices(site, st) == Slices(site, st.(r := st.r + 1, scratch := attempt.scratch)))
      && (!attempt.passed && !st.findFirstAisle ==>
            Slices(site, st) == Slices(site, st.(r := st.r + 1, z := st.z + 1, scratch := attempt.scratch)))
  {
    var attempt := SliceFrom(site, st.c, 0, st.z, st.scratch.(layerContext := map[]));
    if !attempt.passed {
      var rep := site.pattern.aisleRepetitions[st.c];
      if !st.findFirstAisle {
        assert Slices(site, st) == Slices(site, st.(r := st.r + 1, z := st.z + 1, scratch := attempt.scratch));
      } else if st.r < rep.min {
        assert Slices(site, st) == Slices(site, SweepState(0, 1, st.minZ, st.minZ + 1, false, attempt.scratch.(matchContext := map[])));
      } else {
        assert Slices(site, st) == Slices(site, st.(r := st.r + 1, scratch := attempt.scratch));
      }
    }
  }

  /** A matching slice, as Slices takes it: the layer matcher, if any, decides. */
  lemma SlicesUnfoldPassed(site: MatchSite, st: SweepState)
    requires Sweepable(site) && SweepInv(site, st) && 0 <= st.c < site.pattern.fingerLength
    requires if st.findFirstAisle then st.r < site.pattern.aisleRepetitions[st.c].max else st.z <= Lead(site)
    ensures var attempt := SliceFrom(site, st.c, 0, st.z, st.scratch.(layerContext := map[]));
      var next := st.(r := st.r + 1, z := st.z + 1, findFirstAisle := true, scratch := attempt.scratch);
      && (attempt.passed && st.c !in site.pattern.layerMatchers ==> Slices(site, st) == Slices(site, next))
      && (attempt.passed && st.c in site.pattern.layerMatchers ==>
            var lv := site.pattern.layerMatchers[st.c].test(attempt.scratch.layerContext);
            Slices(site, st) == if !lv.passed then None else Slices(site, next.(scratch := next.scratch.(layerContext := lv.context))))
  {
  }
}
