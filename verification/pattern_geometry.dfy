/**
 * How a pattern cell's local coordinates become a world offset: the RelativeDirection of
 * each pattern axis is resolved against the controller's facing, and setActualRelativeOffset
 * writes each local coordinate onto the world axis it resolves to.
 */
module PatternGeometry {
  import opened Minecraft

  /** BlockPattern.RelativeDirection, "relative direction when facing horizontally". */
  datatype RelativeDirection = Up | Down | Left | Right | Front | Back

  /** LEFT and RIGHT rotate the facing about the vertical axis, which Minecraft refuses for UP and DOWN. */
  predicate Supports(d: RelativeDirection, facing: Facing) {
    (d.Left? || d.Right?) ==> IsHorizontal(facing)
  }

  predicate SupportsAll(dirs: seq<RelativeDirection>, facing: Facing) {
    forall i | 0 <= i < |dirs| :: Supports(dirs[i], facing)
  }

  /** getActualFacing: the world facing a relative direction denotes for a controller facing `facing`. */
  function ActualFacing(d: RelativeDirection, facing: Facing): (r: Facing)
    requires Supports(d, facing)
    ensures d.Up? ==> r == Facing.Up
    ensures d.Down? ==> r == Facing.Down
    ensures d.Front? ==> r == facing
    ensures d.Back? ==> Opposite(r) == facing
    ensures d.Left? ==> IsHorizontal(r) && RotateY(r) == facing
    ensures d.Right? ==> IsHorizontal(r) && RotateYCCW(r) == facing
  {
    match d
    case Up => Facing.Up
    case Down => Facing.Down
    case Left => RotateYCCW(facing)
    case Right => RotateY(facing)
    case Front => facing
    case Back => Opposite(facing)
  }

  /**
   * One case of the switch in setActualRelativeOffset: `v` is stored on the world axis of
   * `f`, negated when `f` points towards decreasing coordinates; the other axes keep their value.
   */
  function Place(p: Pos, f: Facing, v: int): (r: Pos)
    ensures Component(r, AxisOf(f)) == SignOf(f) * v
    ensures forall a: Axis :: a != AxisOf(f) ==> Component(r, a) == Component(p, a)
  {
    match f
    case Up => p.(y := v)
    case Down => p.(y := -v)
    case West => p.(x := -v)
    case East => p.(x := v)
    case North => p.(z := -v)
    case South => p.(z := v)
  }

  /** The world facing that pattern axis `i` (0 = x, 1 = y, 2 = z) resolves to. */
  function AxisFacing(dirs: seq<RelativeDirection>, facing: Facing, i: nat): Facing
    requires i < |dirs| && SupportsAll(dirs, facing)
  {
    ActualFacing(dirs[i], facing)
  }

  /** The three pattern axes land on three different world axes. */
  predicate DistinctAxes(dirs: seq<RelativeDirection>, facing: Facing)
    requires |dirs| == 3 && SupportsAll(dirs, facing)
  {
    && AxisOf(AxisFacing(dirs, facing, 0)) != AxisOf(AxisFacing(dirs, facing, 1))
    && AxisOf(AxisFacing(dirs, facing, 0)) != AxisOf(AxisFacing(dirs, facing, 2))
    && AxisOf(AxisFacing(dirs, facing, 1)) != AxisOf(AxisFacing(dirs, facing, 2))
  }

  /**
   * What the first `n` rounds of the switch leave on world axis `a`: the signed coordinate
   * of the last pattern axis that resolves onto `a`, or 0 when none does.
   */
  function LastWritten(dirs: seq<RelativeDirection>, c0: seq<int>, facing: Facing, a: Axis, n: nat): int
    requires n <= |dirs| == |c0| && SupportsAll(dirs, facing)
  {
    if n == 0 then 0
    else
      var f := AxisFacing(dirs, facing, n - 1);
      if AxisOf(f) == a then SignOf(f) * c0[n - 1] else LastWritten(dirs, c0, facing, a, n - 1)
  }

  /**
   * The first `n` rounds of the switch in setActualRelativeOffset, starting from the zeroed
   * array: every world axis holds what the last pattern axis resolving onto it wrote.
   */
  function PlaceAll(dirs: seq<RelativeDirection>, c0: seq<int>, facing: Facing, n: nat): (r: Pos)
    requires n <= |dirs| == |c0| && SupportsAll(dirs, facing)
    ensures forall a: Axis :: Component(r, a) == LastWritten(dirs, c0, facing, a, n)
  {
    if n == 0 then Pos(0, 0, 0)
    else Place(PlaceAll(dirs, c0, facing, n - 1), AxisFacing(dirs, facing, n - 1), c0[n - 1])
  }

  /**
   * The world offset of local coordinates (x, y, z) that setActualRelativeOffset computes.
   * When the three pattern axes resolve onto different world axes, each local coordinate
   * lands, signed, on its own world axis.
   */
  function RelativeOffset(dirs: seq<RelativeDirection>, x: int, y: int, z: int, facing: Facing): (r: Pos)
    requires |dirs| == 3 && SupportsAll(dirs, facing)
    ensures forall a: Axis :: Component(r, a) == LastWritten(dirs, [x, y, z], facing, a, 3)
    ensures DistinctAxes(dirs, facing) ==>
      forall i | 0 <= i < 3 ::
        Component(r, AxisOf(AxisFacing(dirs, facing, i))) == SignOf(AxisFacing(dirs, facing, i)) * [x, y, z][i]
  {
    LastWrittenDistinct(dirs, [x, y, z], facing);
    PlaceAll(dirs, [x, y, z], facing, 3)
  }

  /** With distinct axes no later round overwrites an earlier one. */
  lemma LastWrittenDistinct(dirs: seq<RelativeDirection>, c0: seq<int>, facing: Facing)
    requires |dirs| == |c0| == 3 && SupportsAll(dirs, facing)
    ensures DistinctAxes(dirs, facing) ==>
      forall i | 0 <= i < 3 ::
        LastWritten(dirs, c0, facing, AxisOf(AxisFacing(dirs, facing, i)), 3) == SignOf(AxisFacing(dirs, facing, i)) * c0[i]
  {
    if DistinctAxes(dirs, facing) {
      var a0, a1 := AxisOf(AxisFacing(dirs, facing, 0)), AxisOf(AxisFacing(dirs, facing, 1));
      assert LastWritten(dirs, c0, facing, a1, 3) == LastWritten(dirs, c0, facing, a1, 2);
      assert LastWritten(dirs, c0, facing, a0, 3) == LastWritten(dirs, c0, facing, a0, 2)
        == LastWritten(dirs, c0, facing, a0, 1);
    }
  }

  /** setActualRelativeOffset: stores the world offset of (x, y, z) in `pos`. */
  method SetActualRelativeOffset(pos: MutableBlockPos, dirs: seq<RelativeDirection>, x: int, y: int, z: int, facing: Facing)
    requires |dirs| == 3 && SupportsAll(dirs, facing)
    modifies pos
    ensures pos.Value() == RelativeOffset(dirs, x, y, z, facing)
  {
    var c0 := [x, y, z];
    var c1 := new int[3](_ => 0);
    for i := 0 to 3
      invariant Pos(c1[0], c1[1], c1[2]) == PlaceAll(dirs, c0, facing, i)
    {
      match AxisFacing(dirs, facing, i)
      case Up => c1[1] := c0[i];
      case Down => c1[1] := -c0[i];
      case West => c1[0] := -c0[i];
      case East => c1[0] := c0[i];
      case North => c1[2] := -c0[i];
      case South => c1[2] := c0[i];
    }
    pos.SetPos(c1[0], c1[1], c1[2]);
  }

  /** A facing turned a quarter clockwise about the vertical axis; UP and DOWN stay put. */
  function TurnY(f: Facing): Facing {
    if IsHorizontal(f) then RotateY(f) else f
  }

  /** Turning the controller turns every resolved pattern axis with it. */
  lemma ActualFacingTurns(d: RelativeDirection, facing: Facing)
    requires IsHorizontal(facing)
    ensures ActualFacing(d, RotateY(facing)) == TurnY(ActualFacing(d, facing))
  {
    match d
    case Left => RotateYInverse(RotateYCCW(facing));
    case _ =>
  }

  /** Writing a coordinate and then turning the vector is writing it on the turned axis. */
  lemma PlaceTurns(p: Pos, f: Facing, v: int)
    ensures RotateVecY(Place(p, f, v)) == Place(RotateVecY(p), TurnY(f), v)
  {
  }

  /**
   * Turning the controller a quarter clockwise turns every cell offset of the pattern the
   * same way, so the structure is recognised the same way whichever way it faces.
   */
  lemma RelativeOffsetTurnsWithFacing(dirs: seq<RelativeDirection>, x: int, y: int, z: int, facing: Facing)
    requires |dirs| == 3 && IsHorizontal(facing)
    ensures SupportsAll(dirs, facing) && SupportsAll(dirs, RotateY(facing))
    ensures RelativeOffset(dirs, x, y, z, RotateY(facing)) == RotateVecY(RelativeOffset(dirs, x, y, z, facing))
  {
    PlaceAllTurns(dirs, [x, y, z], facing, 3);
  }

  /** The rounds of the switch commute with turning the controller, one round at a time. */
  lemma {:induction false} PlaceAllTurns(dirs: seq<RelativeDirection>, c0: seq<int>, facing: Facing, n: nat)
    requires n <= |dirs| == |c0| && IsHorizontal(facing)
    ensures SupportsAll(dirs, facing) && SupportsAll(dirs, RotateY(facing))
    ensures PlaceAll(dirs, c0, RotateY(facing), n) == RotateVecY(PlaceAll(dirs, c0, facing, n))
  {
    if n > 0 {
      PlaceAllTurns(dirs, c0, facing, n - 1);
      ActualFacingTurns(dirs[n - 1], facing);
      PlaceTurns(PlaceAll(dirs, c0, facing, n - 1), AxisFacing(dirs, facing, n - 1), c0[n - 1]);
    }
  }

  /** With distinct axes, different local coordinates always give different world offsets. */
  lemma RelativeOffsetInjective(dirs: seq<RelativeDirection>, facing: Facing,
                                x1: int, y1: int, z1: int, x2: int, y2: int, z2: int)
    requires |dirs| == 3 && SupportsAll(dirs, facing) && DistinctAxes(dirs, facing)
    requires RelativeOffset(dirs, x1, y1, z1, facing) == RelativeOffset(dirs, x2, y2, z2, facing)
    ensures x1 == x2 && y1 == y2 && z1 == z2
  {
    var p := RelativeOffset(dirs, x1, y1, z1, facing);
    var q := RelativeOffset(dirs, x2, y2, z2, facing);
    assert Component(p, AxisOf(AxisFacing(dirs, facing, 0))) == SignOf(AxisFacing(dirs, facing, 0)) * [x1, y1, z1][0];
    assert Component(q, AxisOf(AxisFacing(dirs, facing, 0))) == SignOf(AxisFacing(dirs, facing, 0)) * [x2, y2, z2][0];
    assert Component(p, AxisOf(AxisFacing(dirs, facing, 1))) == SignOf(AxisFacing(dirs, facing, 1)) * [x1, y1, z1][1];
    assert Component(q, AxisOf(AxisFacing(dirs, facing, 1))) == SignOf(AxisFacing(dirs, facing, 1)) * [x2, y2, z2][1];
    assert Component(p, AxisOf(AxisFacing(dirs, facing, 2))) == SignOf(AxisFacing(dirs, facing, 2)) * [x1, y1, z1][2];
    assert Component(q, AxisOf(AxisFacing(dirs, facing, 2))) == SignOf(AxisFacing(dirs, facing, 2)) * [x2, y2, z2][2];
  }

  /**
   * With distinct axes, the next slice of an aisle is one block further along the world
   * facing of the pattern's z axis (structureDir[2]).
   */
  lemma NextSliceOneStepAlong(dirs: seq<RelativeDirection>, x: int, y: int, z: int, facing: Facing)
    requires |dirs| == 3 && SupportsAll(dirs, facing) && DistinctAxes(dirs, facing)
    ensures RelativeOffset(dirs, x, y, z + 1, facing) == Offset(RelativeOffset(dirs, x, y, z, facing), AxisFacing(dirs, facing, 2))
  {
    var p := RelativeOffset(dirs, x, y, z, facing);
    var q := RelativeOffset(dirs, x, y, z + 1, facing);
    var s := Offset(p, AxisFacing(dirs, facing, 2));
    var a0, a1, a2 := AxisOf(AxisFacing(dirs, facing, 0)), AxisOf(AxisFacing(dirs, facing, 1)), AxisOf(AxisFacing(dirs, facing, 2));
    assert Component(q, a0) == Component(p, a0) == Component(s, a0);
    assert Component(q, a1) == Component(p, a1) == Component(s, a1);
    assert Component(q, a2) == SignOf(AxisFacing(dirs, facing, 2)) * (z + 1) == Component(s, a2);
    forall a: Axis
      ensures Component(q, a) == Component(s, a)
    {
      assert a == a0 || a == a1 || a == a2;
    }
    assert q.x == Component(q, X) && s.x == Component(s, X);
    assert q.y == Component(q, Y) && s.y == Component(s, Y);
    assert q.z == Component(q, Z) && s.z == Component(s, Z);
  }
}
