/**
 * The slot layout of the assembly line's machine window (RecipeMapAssemblyLine): the
 * grid shape chosen for a number of item inputs, and the slots addInventorySlotGroup adds
 * to the window builder for the inputs and for the outputs.
 */
module AssemblyLine {

  /** A widget the window builder receives. */
  datatype Widget =
    | Image(x: int, y: int, width: int, height: int)
    /** The research data orb slot, bound to item slot 0. */
    | DataSlot(x: int, y: int)
    /** One addSlot call: a slot bound to item slot or tank `index`. */
    | HandlerSlot(x: int, y: int, index: int, isFluid: bool, isOutput: bool)

  /** The grid determineSlotsGrid returns: `left` columns and `down` rows. */
  datatype SlotGrid = SlotGrid(left: nat, down: nat)

  ghost predicate IsSquare(n: nat) {
    exists s: nat :: s * s == n
  }

  lemma SquareMonotone(a: nat, b: nat)
    requires a <= b
    ensures a * a <= b * b
  {
  }

  /** Integer square root by upward search from `s`. */
  function SqrtFrom(n: nat, s: nat): nat
    requires s * s <= n
    decreases n - s * s
  {
    if (s + 1) * (s + 1) > n then s else SqrtFrom(n, s + 1)
  }

  lemma {:induction false} SqrtFromBounds(n: nat, s: nat)
    requires s * s <= n
    ensures var r := SqrtFrom(n, s); r * r <= n < (r + 1) * (r + 1)
    decreases n - s * s
  {
    if (s + 1) * (s + 1) <= n {
      SqrtFromBounds(n, s + 1);
    }
  }

  /** The floor of the square root of `n`, exact for every size of an item handler. */
  function ISqrt(n: nat): (r: nat)
    ensures r * r <= n < (r + 1) * (r + 1)
  {
    SqrtFromBounds(n, 0);
    SqrtFrom(n, 0)
  }

  /** The integer square root recognises exactly the perfect squares. */
  lemma ISqrtExact(n: nat)
    ensures IsSquare(n) <==> ISqrt(n) * ISqrt(n) == n
  {
    var s := ISqrt(n);
    SqrtFromBounds(n, 0);
    if IsSquare(n) {
      var t: nat :| t * t == n;
      if t < s {
        SquareMonotone(t + 1, s);
      } else if t > s {
        SquareMonotone(s + 1, t);
      }
    }
  }

  /**
   * `sqrt % 1 == 0` on the double square root: whether some root from `s` upwards squares
   * to `n`, by upward search.
   */
  predicate SquareFrom(n: nat, s: nat)
    requires s * s <= n
    decreases n - s * s
  {
    if s * s == n then true
    else if (s + 1) * (s + 1) > n then false
    else SquareFrom(n, s + 1)
  }

  ghost predicate SquareAtLeast(n: nat, s: nat) {
    exists t: nat :: s <= t && t * t == n
  }

  lemma {:induction false} SquareFromExact(n: nat, s: nat)
    requires s * s <= n
    ensures SquareFrom(n, s) <==> SquareAtLeast(n, s)
    decreases n - s * s
  {
    if s * s == n {
      assert s <= s && s * s == n;
    } else if (s + 1) * (s + 1) > n {
      if SquareAtLeast(n, s) {
        var t: nat :| s <= t && t * t == n;
        SquareMonotone(s + 1, t);
      }
    } else {
      SquareFromExact(n, s + 1);
      if SquareAtLeast(n, s) {
        var t: nat :| s <= t && t * t == n;
        assert s + 1 <= t && t * t == n;
      }
    }
  }

  /**
   * determineSlotsGrid. A perfect square (0, 1, 4, 9, 16) gives a square grid; otherwise a
   * multiple of three gives three columns, an even count two columns, and anything else
   * falls back to four by four. The first three shapes hold exactly `n` slots.
   */
  function DetermineSlotsGrid(n: nat): SlotGrid
  {
    if SquareFrom(n, 0) then SlotGrid(ISqrt(n), ISqrt(n))
    else if n % 3 == 0 then SlotGrid(3, n / 3)
    else if n % 2 == 0 then SlotGrid(2, n / 2)
    else SlotGrid(4, 4)
  }

  /** The four shapes of determineSlotsGrid, told apart by what `n` is. */
  lemma SlotsGridShape(n: nat)
    ensures var g := DetermineSlotsGrid(n);
      && (IsSquare(n) ==> g.left == g.down && g.left * g.down == n)
      && (!IsSquare(n) && n % 3 == 0 ==> g == SlotGrid(3, n / 3))
      && (!IsSquare(n) && n % 3 != 0 && n % 2 == 0 ==> g == SlotGrid(2, n / 2))
      && (!IsSquare(n) && n % 3 != 0 && n % 2 != 0 ==> g == SlotGrid(4, 4))
      && (g.left * g.down == n || g == SlotGrid(4, 4))
  {
    ISqrtExact(n);
    SquareFromExact(n, 0);
    if IsSquare(n) {
      var t: nat :| t * t == n;
      assert 0 <= t && t * t == n;
    }
    if SquareAtLeast(n, 0) {
      var t: nat :| 0 <= t && t * t == n;
      assert IsSquare(n);
    }
  }

  /** Up to sixteen inputs, the grid has a cell for every input. */
  lemma GridHoldsUpToSixteen(n: nat)
    requires n <= 16
    ensures DetermineSlotsGrid(n).left * DetermineSlotsGrid(n).down >= n
  {
    SlotsGridShape(n);
  }

  /** The fallback shape is also taken for 17, 19, 23, ..., which do not fit in it. */
  lemma GridTooSmallForSeventeen()
    ensures DetermineSlotsGrid(17) == SlotGrid(4, 4)
    ensures DetermineSlotsGrid(17).left * DetermineSlotsGrid(17).down < 17
  {
  }

  /** Row `i` of the item grid, its first `count` cells: cell j is item slot i * left + j + 1. */
  function Row(startX: int, y: int, i: nat, left: nat, count: nat, fluid: bool): (w: seq<Widget>)
    ensures |w| == count
  {
    seq(count, j requires 0 <= j < count => HandlerSlot(startX + 18 * j, y, i * left + j + 1, fluid, false))
  }

  /** The first `rows` rows of the item grid, top to bottom. */
  function GridRows(startX: int, startY: int, left: nat, rows: nat, fluid: bool): seq<Widget>
  {
    if rows == 0 then []
    else
      GridRows(startX, startY, left, rows - 1, fluid)
      + Row(startX, startY + 18 * (rows - 1), rows - 1, left, left, fluid)
  }

  /** The grid binds item slots 1, 2, ..., rows * left in reading order: slot 0 stays free. */
  lemma {:induction false} GridIndices(startX: int, startY: int, left: nat, rows: nat, fluid: bool)
    ensures |GridRows(startX, startY, left, rows, fluid)| == rows * left
    ensures forall k | 0 <= k < rows * left ::
      GridRows(startX, startY, left, rows, fluid)[k].HandlerSlot?
      && GridRows(startX, startY, left, rows, fluid)[k].index == k + 1
      && GridRows(startX, startY, left, rows, fluid)[k].isFluid == fluid
      && !GridRows(startX, startY, left, rows, fluid)[k].isOutput
  {
    if rows > 0 {
      GridIndices(startX, startY, left, rows - 1, fluid);
      var prefix: seq<Widget> := GridRows(startX, startY, left, rows - 1, fluid);
      var row: seq<Widget> := Row(startX, startY + 18 * (rows - 1), rows - 1, left, left, fluid);
      assert (rows - 1) * left + left == rows * left;
      forall k | 0 <= k < rows * left
        ensures (prefix + row)[k].HandlerSlot? && (prefix + row)[k].index == k + 1
        ensures (prefix + row)[k].isFluid == fluid && !(prefix + row)[k].isOutput
      {
        if k >= |prefix| {
          assert (prefix + row)[k] == row[k - (rows - 1) * left];
        }
      }
    }
  }

  /** Cell (i, j) of the grid is 18 pixels per step right and down from the corner. */
  lemma {:induction false} GridCell(startX: int, startY: int, left: nat, rows: nat, fluid: bool, i: nat, j: nat)
    requires i < rows && j < left
    ensures i * left + j < |GridRows(startX, startY, left, rows, fluid)|
    ensures GridRows(startX, startY, left, rows, fluid)[i * left + j]
      == HandlerSlot(startX + 18 * j, startY + 18 * i, i * left + j + 1, fluid, false)
  {
    GridIndices(startX, startY, left, rows - 1, fluid);
    var prefix: seq<Widget> := GridRows(startX, startY, left, rows - 1, fluid);
    var row: seq<Widget> := Row(startX, startY + 18 * (rows - 1), rows - 1, left, left, fluid);
    assert (rows - 1) * left + left == rows * left;
    if i == rows - 1 {
      assert (prefix + row)[i * left + j] == row[j];
    } else {
      assert (rows - 1) * left == (i + 1) * left + (rows - 2 - i) * left;
      GridCell(startX, startY, left, rows - 1, fluid, i, j);
      assert (prefix + row)[i * left + j] == prefix[i * left + j];
    }
  }

  /** The tank column: tank i beside grid row i. */
  function FluidColumn(x: int, startY: int, count: nat, fluid: bool): (w: seq<Widget>)
    ensures |w| == count
  {
    seq(count, i requires 0 <= i < count => HandlerSlot(x, startY + 18 * i, i, fluid, false))
  }

  /** The counts after the swap: a group without item slots lays out its tanks as the grid. */
  datatype GroupCounts = GroupCounts(items: nat, fluids: nat, invertFluids: bool)

  function SwapIfNoItems(itemCount: nat, fluidCount: nat): (c: GroupCounts)
    ensures c.invertFluids <==> itemCount == 0
    ensures c.items + c.fluids == itemCount + fluidCount
    ensures c.invertFluids ==> c.fluids == 0
    ensures !c.invertFluids ==> c.items == itemCount && c.fluids == fluidCount
  {
    if itemCount == 0 then GroupCounts(fluidCount, itemCount, true)
    else GroupCounts(itemCount, fluidCount, false)
  }

  /** The left edge of the grid: the grid ends at x = 80. */
  function StartX(g: SlotGrid): int { 80 - g.left * 18 }

  /** The top edge of the grid, `37 - (int) (down / 2.0 * 18)`, which is exact for every count. */
  function StartY(g: SlotGrid): int { 37 - 9 * g.down }

  /** The tank column is drawn only when every tank fits beside a grid row. */
  predicate ShowsFluids(c: GroupCounts, g: SlotGrid) {
    (c.fluids > 0 || c.invertFluids) && g.down >= c.fluids
  }

  /** The widgets of a group with counts `c` laid out on grid `g`, in the order they are added. */
  function SlotGroupOn(c: GroupCounts, g: SlotGrid, isOutputs: bool): seq<Widget>
  {
    if isOutputs then
      [HandlerSlot(StartX(g) + 18 * 4, 1, 18, c.invertFluids, true)]
    else
      [DataSlot(StartX(g) + 18 * 7, 1 + 18 * 2)]
      + GridRows(StartX(g), StartY(g), g.left, g.down, c.invertFluids)
      + (if ShowsFluids(c, g) then FluidColumn(StartX(g) + 18 * 5, StartY(g), c.fluids, !c.invertFluids) else [])
  }

  /** Every widget addInventorySlotGroup adds, in order. */
  function SlotGroup(itemCount: nat, fluidCount: nat, isOutputs: bool): seq<Widget>
  {
    var c := SwapIfNoItems(itemCount, fluidCount);
    SlotGroupOn(c, DetermineSlotsGrid(c.items), isOutputs)
  }

  /**
   * The input group: the data slot first, then grid slots bound to item slots 1 .. left * down
   * in reading order (tanks when there are no item slots), then, if shown, one tank slot
   * per tank of the other kind.
   */
  /** The grid an input group is laid out on. */
  function InputGrid(itemCount: nat, fluidCount: nat): SlotGrid {
    DetermineSlotsGrid(SwapIfNoItems(itemCount, fluidCount).items)
  }

  /** The input group is the data slot, the grid and the (possibly empty) tank column. */
  lemma InputGroupParts(itemCount: nat, fluidCount: nat)
    ensures var c := SwapIfNoItems(itemCount, fluidCount);
      var g := InputGrid(itemCount, fluidCount);
      SlotGroup(itemCount, fluidCount, false)
        == [DataSlot(StartX(g) + 126, 37)]
           + GridRows(StartX(g), StartY(g), g.left, g.down, itemCount == 0)
           + (if ShowsFluids(c, g) then FluidColumn(StartX(g) + 90, StartY(g), c.fluids, itemCount != 0) else [])
  {
  }

  /**
   * In the input group, the data slot comes first and the next left * down slots are bound
   * to item slots 1 .. left * down in reading order; they are tanks exactly when the group has
   * no item slots.
   */
  lemma InputGridSlots(itemCount: nat, fluidCount: nat)
    ensures var g := InputGrid(itemCount, fluidCount);
      var w := SlotGroup(itemCount, fluidCount, false);
      && |w| >= 1 + g.left * g.down
      && w[0] == DataSlot(StartX(g) + 126, 37)
      && forall k | 1 <= k <= g.left * g.down ::
           w[k].HandlerSlot? && w[k].index == k && w[k].isFluid == (itemCount == 0) && !w[k].isOutput
  {
    InputGridOn(SwapIfNoItems(itemCount, fluidCount), InputGrid(itemCount, fluidCount));
  }

  /** The data slot and the grid of an input group with counts `c` on grid `g`. */
  lemma InputGridOn(c: GroupCounts, g: SlotGrid)
    ensures var w := SlotGroupOn(c, g, false);
      && |w| >= 1 + g.left * g.down
      && w[0] == DataSlot(StartX(g) + 126, 37)
      && forall k | 1 <= k <= g.left * g.down ::
           w[k].HandlerSlot? && w[k].index == k && w[k].isFluid == c.invertFluids && !w[k].isOutput
  {
    var grid := GridRows(StartX(g), StartY(g), g.left, g.down, c.invertFluids);
    var col: seq<Widget> := if ShowsFluids(c, g) then FluidColumn(StartX(g) + 90, StartY(g), c.fluids, !c.invertFluids) else [];
    GridIndices(StartX(g), StartY(g), g.left, g.down, c.invertFluids);
    var head: seq<Widget> := [DataSlot(StartX(g) + 126, 37)];
    assert SlotGroupOn(c, g, false) == head + (grid + col);
    forall k | 1 <= k <= g.left * g.down
      ensures (head + (grid + col))[k] == grid[k - 1]
    {
      AfterPrefix(head, grid + col, k - 1);
    }
  }

  /**
   * After the grid come the tank slots of the other kind, one per grid row, when they all fit
   * beside the grid; tank i sits at the height of row i.
   */
  lemma InputFluidSlots(itemCount: nat, fluidCount: nat)
    ensures var c := SwapIfNoItems(itemCount, fluidCount);
      var g := InputGrid(itemCount, fluidCount);
      var w := SlotGroup(itemCount, fluidCount, false);
      && |w| == 1 + g.left * g.down + (if ShowsFluids(c, g) then c.fluids else 0)
      && forall i | 0 <= i < |w| - 1 - g.left * g.down ::
           w[1 + g.left * g.down + i] == HandlerSlot(StartX(g) + 90, StartY(g) + 18 * i, i, itemCount != 0, false)
  {
    var c := SwapIfNoItems(itemCount, fluidCount);
    InputColumnOn(c, InputGrid(itemCount, fluidCount));
  }

  /** The tank column of an input group with counts `c` on grid `g` follows the grid. */
  lemma InputColumnOn(c: GroupCounts, g: SlotGrid)
    ensures var w := SlotGroupOn(c, g, false);
      && |w| == 1 + g.left * g.down + (if ShowsFluids(c, g) then c.fluids else 0)
      && forall i | 0 <= i < |w| - 1 - g.left * g.down ::
           w[1 + g.left * g.down + i] == HandlerSlot(StartX(g) + 90, StartY(g) + 18 * i, i, !c.invertFluids, false)
  {
    var front: seq<Widget> := [DataSlot(StartX(g) + 126, 37)] + GridRows(StartX(g), StartY(g), g.left, g.down, c.invertFluids);
    GridIndices(StartX(g), StartY(g), g.left, g.down, c.invertFluids);
    assert |front| == 1 + g.left * g.down;
    if ShowsFluids(c, g) {
      var col := FluidColumn(StartX(g) + 90, StartY(g), c.fluids, !c.invertFluids);
      assert SlotGroupOn(c, g, false) == front + col;
      forall i | 0 <= i < |col|
        ensures (front + col)[|front| + i] == HandlerSlot(StartX(g) + 90, StartY(g) + 18 * i, i, !c.invertFluids, false)
      {
        AfterPrefix(front, col, i);
      }
    } else {
      assert SlotGroupOn(c, g, false) == front + [];
    }
  }

  /** Element `i` of `b` sits at `|a| + i` in `a + b`. */
  lemma AfterPrefix<T>(a: seq<T>, b: seq<T>, i: nat)
    requires i < |b|
    ensures (a + b)[|a| + i] == b[i]
  {
  }

  /** No two grid slots share an item slot, and none takes the data slot's index 0. */
  lemma InputSlotIndicesDistinct(itemCount: nat, fluidCount: nat, k1: nat, k2: nat)
    requires var g := InputGrid(itemCount, fluidCount);
      1 <= k1 <= g.left * g.down && 1 <= k2 <= g.left * g.down && k1 != k2
    ensures var w := SlotGroup(itemCount, fluidCount, false);
      k1 < |w| && k2 < |w| && w[k1].HandlerSlot? && w[k2].HandlerSlot? && w[k1].index != w[k2].index && w[k1].index != 0
  {
    InputGridSlots(itemCount, fluidCount);
    var w := SlotGroup(itemCount, fluidCount, false);
    assert w[k1].index == k1 && w[k2].index == k2;
  }

  /** An output group is the single output slot above the arrow, bound to slot 18. */
  lemma OutputGroupLayout(itemCount: nat, fluidCount: nat)
    ensures var g := DetermineSlotsGrid(SwapIfNoItems(itemCount, fluidCount).items);
      SlotGroup(itemCount, fluidCount, true) == [HandlerSlot(80 - 18 * g.left + 72, 1, 18, itemCount == 0, true)]
  {
  }

  /** The window under construction: the widgets added so far. */
  class SlotLayout {
    var widgets: seq<Widget>

    constructor ()
      ensures widgets == []
    {
      widgets := [];
    }

    /** RecipeMap.addSlot, which is not part of this model: it records the slot it is asked for. */
    method AddSlot(x: int, y: int, index: int, isFluid: bool, isOutput: bool)
      modifies this
      ensures widgets == old(widgets) + [HandlerSlot(x, y, index, isFluid, isOutput)]
    {
      widgets := widgets + [HandlerSlot(x, y, index, isFluid, isOutput)];
    }

    method AddWidget(w: Widget)
      modifies this
      ensures widgets == old(widgets) + [w]
    {
      widgets := widgets + [w];
    }
  }

  /** The nested loops of addInventorySlotGroup that add the grid, row by row. */
  method AddGridSlots(builder: SlotLayout, startX: int, startY: int, left: nat, down: nat, invertFluids: bool, isOutputs: bool)
    requires !isOutputs
    modifies builder
    ensures builder.widgets == old(builder.widgets) + GridRows(startX, startY, left, down, invertFluids)
  {
    for i := 0 to down
      invariant builder.widgets == old(builder.widgets) + GridRows(startX, startY, left, i, invertFluids)
    {
      ghost var rowStart := builder.widgets;
      for j := 0 to left
        invariant builder.widgets == rowStart + Row(startX, startY + 18 * i, i, left, j, invertFluids)
      {
        var slotIndex := i * left + j + 1;
        builder.AddSlot(startX + 18 * j, startY + 18 * i, slotIndex, invertFluids, isOutputs);
        assert Row(startX, startY + 18 * i, i, left, j + 1, invertFluids)
          == Row(startX, startY + 18 * i, i, left, j, invertFluids)
             + [HandlerSlot(startX + 18 * j, startY + 18 * i, slotIndex, invertFluids, false)];
      }
    }
  }

  /** The loop of addInventorySlotGroup that adds one slot per tank beside the grid. */
  method AddFluidSlots(builder: SlotLayout, startSpecX: int, startY: int, count: nat, fluid: bool, isOutputs: bool)
    requires !isOutputs
    modifies builder
    ensures builder.widgets == old(builder.widgets) + FluidColumn(startSpecX, startY, count, fluid)
  {
    for i := 0 to count
      invariant builder.widgets == old(builder.widgets) + FluidColumn(startSpecX, startY, i, fluid)
    {
      builder.AddSlot(startSpecX, startY + 18 * i, i, fluid, isOutputs);
      assert FluidColumn(startSpecX, startY, i + 1, fluid)
        == FluidColumn(startSpecX, startY, i, fluid) + [HandlerSlot(startSpecX, startY + 18 * i, i, fluid, false)];
    }
  }

  /** The body of addInventorySlotGroup once the counts are swapped and the grid is chosen. */
  method AddSlotGroupOn(builder: SlotLayout, c: GroupCounts, g: SlotGrid, isOutputs: bool)
    modifies builder
    ensures builder.widgets == old(builder.widgets) + SlotGroupOn(c, g, isOutputs)
  {
    var itemSlotsToLeft := g.left;
    var itemSlotsToDown := g.down;
    var startInputsX := 80 - 18 * (itemSlotsToLeft as int);
    var startInputsY := 37 - 9 * (itemSlotsToDown as int);
    assert startInputsX == StartX(g) && startInputsY == StartY(g);
    if !isOutputs {
      ghost var start := builder.widgets;
      ghost var grid := GridRows(StartX(g), StartY(g), g.left, g.down, c.invertFluids);
      builder.AddWidget(DataSlot(startInputsX + 18 * 7, 1 + 18 * 2));
      AddGridSlots(builder, startInputsX, startInputsY, itemSlotsToLeft, itemSlotsToDown, c.invertFluids, isOutputs);
      ghost var front := builder.widgets;
      assert front == start + ([DataSlot(StartX(g) + 126, 37)] + grid);
      if (c.fluids > 0 || c.invertFluids) && itemSlotsToDown >= c.fluids {
        var startSpecX := startInputsX + 18 * 5;
        AddFluidSlots(builder, startSpecX, startInputsY, c.fluids, !c.invertFluids, isOutputs);
        assert builder.widgets == front + FluidColumn(StartX(g) + 90, StartY(g), c.fluids, !c.invertFluids);
      } else {
        assert builder.widgets == front + [];
      }
    } else {
      builder.AddSlot(startInputsX + 18 * 4, 1, 18, c.invertFluids, isOutputs);
    }
  }

  /** addInventorySlotGroup: swaps the counts when there are no item slots, picks the grid, and adds the slots. */
  method AddInventorySlotGroup(builder: SlotLayout, itemCount: nat, fluidCount: nat, isOutputs: bool)
    modifies builder
    ensures builder.widgets == old(builder.widgets) + SlotGroup(itemCount, fluidCount, isOutputs)
  {
    var itemInputsCount := itemCount;
    var fluidInputsCount := fluidCount;
    var invertFluids := false;
    if itemInputsCount == 0 {
      var tmp := itemInputsCount;
      itemInputsCount := fluidInputsCount;
      fluidInputsCount := tmp;
      invertFluids := true;
    }
    var c := GroupCounts(itemInputsCount, fluidInputsCount, invertFluids);
    assert c == SwapIfNoItems(itemCount, fluidCount);
    var g := DetermineSlotsGrid(itemInputsCount);
    AddSlotGroupOn(builder, c, g, isOutputs);
  }

  /** createUITemplate: the assembly line picture, then the input group, then the output group. */
  method CreateUITemplate(importItems: nat, importFluids: nat, exportItems: nat, exportFluids: nat)
    returns (builder: SlotLayout)
    ensures fresh(builder)
    ensures builder.widgets == [Image(62 + 18, 1, 72, 72)]
      + SlotGroup(importItems, importFluids, false) + SlotGroup(exportItems, exportFluids, true)
  {
    builder := new SlotLayout();
    builder.AddWidget(Image(62 + 18, 1, 72, 72));
    AddInventorySlotGroup(builder, importItems, importFluids, false);
    ghost var withInputs := builder.widgets;
    assert withInputs == [Image(62 + 18, 1, 72, 72)] + SlotGroup(importItems, importFluids, false);
    AddInventorySlotGroup(builder, exportItems, exportFluids, true);
    assert builder.widgets == withInputs + SlotGroup(exportItems, exportFluids, true);
  }
}
