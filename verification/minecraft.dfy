/**
 * The Minecraft types the multiblock matcher works with: EnumFacing, BlockPos and
 * MutableBlockPos, block states, tile entities and the world. They are foreign to the
 * matcher, so only the behaviour it relies on is modelled here.
 */
module Minecraft {
  import opened Wrappers

  /** EnumFacing. North is towards -z, south towards +z, west towards -x, east towards +x. */
  datatype Facing = Down | Up | North | South | West | East

  /** The three world axes. */
  datatype Axis = X | Y | Z

  /** An immutable block position (BlockPos). */
  datatype Pos = Pos(x: int, y: int, z: int)

  predicate IsHorizontal(f: Facing) {
    f.North? || f.South? || f.West? || f.East?
  }

  /** The world axis a facing points along. */
  function AxisOf(f: Facing): Axis {
    match f
    case Down | Up => Y
    case North | South => Z
    case West | East => X
  }

  /** +1 for a facing that points towards increasing coordinates, -1 otherwise. */
  function SignOf(f: Facing): int {
    if f.Down? || f.North? || f.West? then -1 else 1
  }

  function Component(p: Pos, a: Axis): int {
    match a
    case X => p.x
    case Y => p.y
    case Z => p.z
  }

  function Plus(p: Pos, q: Pos): (r: Pos)
    ensures forall a: Axis :: Component(r, a) == Component(p, a) + Component(q, a)
  {
    Pos(p.x + q.x, p.y + q.y, p.z + q.z)
  }

  /** EnumFacing.getDirectionVec: the unit step one block along `f`. */
  function DirectionVec(f: Facing): (v: Pos)
    ensures Component(v, AxisOf(f)) == SignOf(f)
    ensures forall a: Axis :: a != AxisOf(f) ==> Component(v, a) == 0
  {
    match f
    case Down => Pos(0, -1, 0)
    case Up => Pos(0, 1, 0)
    case North => Pos(0, 0, -1)
    case South => Pos(0, 0, 1)
    case West => Pos(-1, 0, 0)
    case East => Pos(1, 0, 0)
  }

  /** BlockPos.offset(face): the neighbouring position one step along `face`. */
  function Offset(p: Pos, face: Facing): Pos {
    Plus(p, DirectionVec(face))
  }

  /** EnumFacing.getOpposite. */
  function Opposite(f: Facing): (r: Facing)
    ensures AxisOf(r) == AxisOf(f) && SignOf(r) == -SignOf(f)
    ensures IsHorizontal(r) == IsHorizontal(f)
  {
    match f
    case Down => Up
    case Up => Down
    case North => South
    case South => North
    case West => East
    case East => West
  }

  /**
   * EnumFacing.rotateY: a quarter turn clockwise seen from above. Minecraft throws an
   * IllegalStateException for UP and DOWN, so only horizontal facings are accepted.
   */
  function RotateY(f: Facing): (r: Facing)
    requires IsHorizontal(f)
    ensures IsHorizontal(r) && AxisOf(r) != AxisOf(f)
  {
    match f
    case North => East
    case East => South
    case South => West
    case West => North
  }

  /** EnumFacing.rotateYCCW: a quarter turn counter-clockwise seen from above. */
  function RotateYCCW(f: Facing): (r: Facing)
    requires IsHorizontal(f)
    ensures IsHorizontal(r) && RotateY(r) == f
  {
    match f
    case North => West
    case West => South
    case South => East
    case East => North
  }

  /** The same clockwise quarter turn about the vertical axis, applied to a world vector. */
  function RotateVecY(p: Pos): Pos {
    Pos(-p.z, p.y, p.x)
  }

  /** Rotating a facing and rotating its unit vector agree. */
  lemma RotateYTurnsDirectionVec(f: Facing)
    requires IsHorizontal(f)
    ensures DirectionVec(RotateY(f)) == RotateVecY(DirectionVec(f))
  {
  }

  /** rotateYCCW undoes rotateY. */
  lemma RotateYInverse(f: Facing)
    requires IsHorizontal(f)
    ensures RotateYCCW(RotateY(f)) == f
  {
  }

  /** Moving one step along `f` and one step back returns to the start. */
  lemma OffsetThereAndBack(p: Pos, f: Facing)
    ensures Offset(Offset(p, f), Opposite(f)) == p
  {
  }

  /** BlockPos.MutableBlockPos: a position object that is updated in place. */
  class MutableBlockPos {
    var x: int
    var y: int
    var z: int

    /** The immutable copy of the current position (toImmutable). */
    function Value(): Pos
      reads this
    {
      Pos(x, y, z)
    }

    constructor ()
      ensures Value() == Pos(0, 0, 0)
    {
      x, y, z := 0, 0, 0;
    }

    method SetPos(nx: int, ny: int, nz: int)
      modifies this
      ensures Value() == Pos(nx, ny, nz)
    {
      x, y, z := nx, ny, nz;
    }

    /** MutableBlockPos.move(face): one step along `face`, in place. */
    method Move(face: Facing)
      modifies this
      ensures Value() == Offset(old(Value()), face)
    {
      var v := DirectionVec(face);
      x, y, z := x + v.x, y + v.y, z + v.z;
    }
  }

  /** An IBlockState, known only by identity. */
  datatype BlockState = BlockState(id: int)

  /** A TileEntity, known only by identity. */
  datatype TileEntity = TileEntity(id: int)

  /**
   * The world, as far as the matcher queries it: the block state at every position and the
   * tile entity (or null) at every position. During one match attempt it does not change.
   */
  datatype World = World(blockAt: Pos -> BlockState, tileAt: Pos -> Option<TileEntity>)
}
