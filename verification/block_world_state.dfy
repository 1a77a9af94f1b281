/**
 * MutableBlockWorldState: the cursor through which block predicates look at the world,
 * and BlockView, the snapshot of it that a predicate observes while it is tested.
 */
module BlockWorldState {
  import opened Wrappers
  import opened Minecraft
  import opened PatternMatchContext

  /**
   * What a predicate can observe through IBlockWorldState: the world, the cursor's
   * position and the current contents of the match and layer contexts.
   */
  datatype BlockView = BlockView(world: World, pos: Pos, matchContext: Ctx, layerContext: Ctx)
  {
    /** getBlockState right after the cursor was moved to `pos`. */
    function State(): BlockState {
      world.blockAt(pos)
    }

    /** getOffsetState(face). */
    function OffsetState(face: Facing): BlockState {
      world.blockAt(Offset(pos, face))
    }

    /** getTileEntity. */
    function Tile(): Option<TileEntity> {
      world.tileAt(pos)
    }
  }

  class MutableBlockWorldState {
    const world: World
    const matchContext: MutablePatternMatchContext
    const layerContext: MutablePatternMatchContext

    /** The position object handed to `update`; it is shared, not copied. */
    var pos: MutableBlockPos?
    /** The block state read by the last `update` (null before the first one). */
    var state: Option<BlockState>
    var tileEntity: Option<TileEntity>
    var tileEntityFetched: bool

    /** Where the last `update` read `state`. */
    ghost var statePos: Pos
    /** Where the cached tile entity was read. */
    ghost var tilePos: Pos
    /** How many times the world was asked for a tile entity since the last `update`. */
    ghost var tileQueries: nat

    /**
     * The caches hold the world's answers: `state` is the block where `update` looked, a
     * fetched tile entity is the one where it was fetched, and the world has been asked for a
     * tile entity at most once since the last update.
     */
    ghost predicate Valid()
      reads this
    {
      && (state.Some? ==> state.value == world.blockAt(statePos))
      && (tileEntity.Some? ==> tileEntityFetched)
      && (tileEntityFetched ==> tileEntity == world.tileAt(tilePos))
      && tileQueries == (if tileEntityFetched then 1 else 0)
    }

    /** The snapshot a predicate receives when it is tested at the cursor. */
    function View(): BlockView
      requires pos != null
      reads this, pos, matchContext, layerContext
    {
      BlockView(world, pos.Value(), matchContext.contextData, layerContext.contextData)
    }

    constructor (world: World, matchContext: MutablePatternMatchContext, layerContext: MutablePatternMatchContext)
      ensures this.world == world && this.matchContext == matchContext && this.layerContext == layerContext
      ensures pos == null && state == None && tileEntity == None && !tileEntityFetched
      ensures Valid()
    {
      this.world := world;
      this.matchContext := matchContext;
      this.layerContext := layerContext;
      pos := null;
      state := None;
      tileEntity := None;
      tileEntityFetched := false;
      tileQueries := 0;
    }

    /** update: point the cursor at `posIn`, read its block state and forget the tile entity. */
    method Update(posIn: MutableBlockPos)
      modifies this
      ensures pos == posIn && statePos == posIn.Value()
      ensures state == Some(world.blockAt(posIn.Value()))
      ensures tileEntity == None && !tileEntityFetched && tileQueries == 0
      ensures Valid()
    {
      pos := posIn;
      state := Some(world.blockAt(pos.Value()));
      statePos := posIn.Value();
      tileEntity := None;
      tileEntityFetched := false;
      tileQueries := 0;
    }

    method GetWorld() returns (w: World)
      ensures w == world
    {
      w := world;
    }

    /** getPos: an immutable copy of wherever the shared position object now points. */
    method GetPos() returns (p: Pos)
      requires pos != null
      ensures p == pos.Value()
      ensures p == View().pos
    {
      p := pos.Value();
    }

    /** getBlockState: the block state cached by the last `update`, read from the world there. */
    method GetBlockState() returns (s: Option<BlockState>)
      requires Valid()
      ensures s.None? <==> state.None?
      ensures s.Some? ==> s.value == world.blockAt(statePos)
    {
      s := state;
    }

    /**
     * getOffsetState for a mutable position: step along `face`, read the world, step back.
     * The answer is the block next to the cursor and the position is left as it was.
     */
    method GetOffsetState(face: Facing) returns (s: BlockState)
      requires pos != null
      modifies pos
      ensures s == world.blockAt(Offset(old(pos.Value()), face))
      ensures pos.Value() == old(pos.Value())
    {
      ghost var start := pos.Value();
      pos.Move(face);
      s := world.blockAt(pos.Value());
      pos.Move(Opposite(face));
      OffsetThereAndBack(start, face);
    }

    /**
     * getTileEntity: fetched from the world on the first call after an `update` and cached;
     * later calls answer from the cache without asking the world again.
     */
    method GetTileEntity() returns (t: Option<TileEntity>)
      requires pos != null && Valid()
      modifies this
      ensures pos == old(pos) && state == old(state) && statePos == old(statePos)
      ensures Valid() && tileEntityFetched && t == tileEntity
      ensures old(tileEntityFetched) ==> t == old(tileEntity) && tileQueries == old(tileQueries)
      ensures !old(tileEntityFetched) ==> t == world.tileAt(pos.Value()) && tileQueries == 1
    {
      if tileEntity.None? && !tileEntityFetched {
        tileEntity := world.tileAt(pos.Value());
        tilePos := pos.Value();
        tileEntityFetched := true;
        tileQueries := tileQueries + 1;
      }
      t := tileEntity;
    }

    method GetMatchContext() returns (m: MutablePatternMatchContext)
      ensures m == matchContext
    {
      m := matchContext;
    }

    method GetLayerContext() returns (l: MutablePatternMatchContext)
      ensures l == layerContext
    {
      l := layerContext;
    }
  }
}
