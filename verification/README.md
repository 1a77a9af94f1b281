# GregTech multiblock matcher and recipe rules, modelled in Dafny

This project models the core of GregTech's multiblock structure matcher. It also models four
smaller pieces of integer logic from the same mod.

**Multiblock structure matcher** (`gregtech.api.multiblock`). A `BlockPattern` is a
three-dimensional array of block predicates indexed `[z][y][x]`: aisles, rows, cells. Each
aisle may repeat between a minimum and a maximum number of times. The pattern also carries
layer matchers per aisle, count matches and validators. `checkPatternAt` decides whether the
pattern is built in the world around a controller position for a given facing.

- `minecraft.dfy`: the Minecraft types the matcher relies on. These are `EnumFacing` with
  rotation and opposite, positions, `MutableBlockPos`, and the world as a total map from
  positions to block states and tile entities.
- `match_context.dfy`: `MutablePatternMatchContext`, a class over its `contextData` map.
- `block_world_state.dfy`: `MutableBlockWorldState`, the shared cursor, with its block-state
  cache and its lazy tile-entity cache.
- `pattern_geometry.dfy`: `RelativeDirection` and `setActualRelativeOffset`.
- `block_pattern.dfy`: the pattern data, the constructor's dimensions and the centre search.
- `pattern_sweep.dfy`: the sweep `checkPatternAt` performs, written as functions (`CheckPattern`).
- `pattern_matcher.dfy`: `checkPatternAt` itself, as nested loops over a cursor, two contexts
  and the count-match array. It is proved to return null exactly when `CheckPattern` fails,
  and otherwise the match context `CheckPattern` computes.
- `pattern_properties.dfy`: properties of the sweep: where cells are tested, what a match guarantees, how the leading search ends when aisle 0 never matches, and why a required later aisle that never matches rejects the pattern.

**Secondary pieces.**

- `wire_recipes.dfy`: the rules of `WireRecipeHandler`:
  - how much insulation fluid a cable needs;
  - which cables are insulated by hand;
  - the doubling, splitting, quadrupling, packing and unpacking recipes between the five wire
    sizes, as lists of abstract recipe descriptors.
- `assembly_line.dfy`: the assembly line's window layout. This is `determineSlotsGrid`, the
  count swap, and the slot positions and indices of `addInventorySlotGroup`. Widgets are
  recorded in a builder class.
- `large_boiler.dfy`: the integer state of the new large boiler, as a class whose methods are
  proved against functions on a snapshot of its fields. It covers:
  - the throttle click and the reset on invalidation;
  - the structure rule;
  - the water and solid-fuel remainder carries;
  - the fuel countdown, the temperature cap and super-heating;
  - the NBT round trip and the light value.
- `empty_recipe_properties.dfy`: `EmptyRecipePropertyStorage`, the null object. Each answer is
  measured against what any property storage answers from its contents.

**Behaviour the code has, and the model keeps.**

- **A failed slice still counts as a repetition.** A failing cell ends the slice with
  `continue loop`, which still increments the repetition counter `r`. A pattern of one centre
  cell repeated exactly once therefore matches whether or not its predicate holds
  (`PatternProperties.OneCellPatternAlwaysMatches`).
- **A retreat keeps the tallies.** A retreat to aisle 0 clears the match context but not the
  count-match tallies. Tallies from abandoned attempts stay in the final count check.
- **The 4 x 4 fallback grid can be too small.** `determineSlotsGrid` falls back to four by four
  for every odd count that is neither a square nor a multiple of three. For 17, 19, 23, … that
  grid has fewer cells than inputs (`AssemblyLine.GridTooSmallForSeventeen`).
- **Super-heating pins the temperature and stops the fuel timer.** Super-heating uses
  `Math.max(current + 20, max)`, which lifts the temperature to at least the maximum on every
  generating tick. The fuel countdown only runs below the maximum, so it stops
  (`LargeBoiler.SuperHeatPinsTemperature`). `superTemperatureIncrease` is never cleared except
  by invalidation and loading.
- **Listing fuels changes the boiler.** `getFuels` moves the solid-fuel carry just as burning
  would, although it only lists fuels (`LargeBoiler.ListingFuelsMovesCarry`).

## Model

| member | source | states |
|---|---|---|
| Minecraft.Plus | src/main/java/gregtech/api/multiblock/BlockPattern.java:115 | Adding the centre position adds it component by component on every world axis. |
| Minecraft.DirectionVec | src/main/java/gregtech/api/multiblock/MutableBlockWorldState.java:52-57 | The unit step of a facing is ±1 on the facing's own axis, signed by its direction, and 0 on the other two axes. |
| Minecraft.Opposite | src/main/java/gregtech/api/multiblock/BlockPattern.java:196 | The opposite facing lies on the same axis with the opposite sign, and is horizontal exactly when the facing is. |
| Minecraft.RotateY | src/main/java/gregtech/api/multiblock/BlockPattern.java:194 | `rotateY` is defined only on horizontal facings; it gives a horizontal facing on the other horizontal axis. |
| Minecraft.RotateYCCW | src/main/java/gregtech/api/multiblock/BlockPattern.java:193 | `rotateYCCW` gives a horizontal facing that `rotateY` turns back into the original one. |
| Minecraft.RotateYTurnsDirectionVec | src/main/java/gregtech/api/multiblock/BlockPattern.java:193-194 | Turning a facing a quarter turn turns its unit step the same way. |
| Minecraft.RotateYInverse | src/main/java/gregtech/api/multiblock/BlockPattern.java:193-194 | `rotateYCCW` undoes `rotateY`, so LEFT and RIGHT are mirror images. |
| Minecraft.OffsetThereAndBack | src/main/java/gregtech/api/multiblock/MutableBlockWorldState.java:52-54 | A step along a facing followed by a step along its opposite returns to the start. |
| Minecraft.MutableBlockPos.constructor | src/main/java/gregtech/api/multiblock/BlockPattern.java:97 | A new mutable position is the origin. |
| Minecraft.MutableBlockPos.SetPos | src/main/java/gregtech/api/multiblock/BlockPattern.java:184 | `setPos` makes the object hold exactly the given coordinates. |
| Minecraft.MutableBlockPos.Move | src/main/java/gregtech/api/multiblock/MutableBlockWorldState.java:52 | `move` shifts the held position one step along the facing, in place. |
| PatternMatchContext.Lookup | src/main/java/gregtech/api/multiblock/MutablePatternMatchContext.java:24 | `HashMap.get` of an absent key is null. |
| PatternMatchContext.Wrap32 | src/main/java/gregtech/api/multiblock/MutablePatternMatchContext.java:47 | Java int addition: the result is a 32-bit value congruent to the exact sum modulo 2^32, and equal to it when the sum fits. |
| PatternMatchContext.MutablePatternMatchContext.constructor | src/main/java/gregtech/api/multiblock/MutablePatternMatchContext.java:11 | A new context holds nothing. |
| PatternMatchContext.MutablePatternMatchContext.ResetContext | src/main/java/gregtech/api/multiblock/MutablePatternMatchContext.java:13-15 | After a reset every key reads as absent. |
| PatternMatchContext.MutablePatternMatchContext.Set | src/main/java/gregtech/api/multiblock/MutablePatternMatchContext.java:17-20 | After `set(k, v)`, `k` reads `v` (null included) and every other key reads as before. |
| PatternMatchContext.MutablePatternMatchContext.Get | src/main/java/gregtech/api/multiblock/MutablePatternMatchContext.java:22-26 | `get` is empty exactly when the key is absent or holds null; otherwise it is the stored value. The map is not modified. |
| PatternMatchContext.MutablePatternMatchContext.GetOrCreate | src/main/java/gregtech/api/multiblock/MutablePatternMatchContext.java:28-37 | A non-null stored value is returned and nothing changes. Otherwise the supplier's value is stored under the key and returned, and no other key changes. |
| PatternMatchContext.MutablePatternMatchContext.GetOrDefault | src/main/java/gregtech/api/multiblock/MutablePatternMatchContext.java:39-43 | The stored value when it is present and not null, the default otherwise; nothing is stored. |
| PatternMatchContext.MutablePatternMatchContext.Increment | src/main/java/gregtech/api/multiblock/MutablePatternMatchContext.java:45-48 | The key ends up holding the previous Integer (0 when absent or null) plus the increment, with Java int wrap-around; no other key changes. |
| PatternMatchContext.MutablePatternMatchContext.GetOrPut | src/main/java/gregtech/api/multiblock/MutablePatternMatchContext.java:50-58 | A non-null stored value is returned and not overwritten. Otherwise the initial value is stored and returned. |
| BlockWorldState.MutableBlockWorldState.constructor | src/main/java/gregtech/api/multiblock/MutableBlockWorldState.java:21-25 | The cursor keeps the world and both contexts it is given, and starts with no position and empty caches. |
| BlockWorldState.MutableBlockWorldState.Update | src/main/java/gregtech/api/multiblock/MutableBlockWorldState.java:27-32 | The cursor points at the given position object and caches the world's block state there. The tile entity is forgotten and not yet fetched. |
| BlockWorldState.MutableBlockWorldState.GetWorld | src/main/java/gregtech/api/multiblock/MutableBlockWorldState.java:34-37 | The world is the one given to the constructor. |
| BlockWorldState.MutableBlockWorldState.GetPos | src/main/java/gregtech/api/multiblock/MutableBlockWorldState.java:39-42 | An immutable copy of where the shared position object points now, which is the position a predicate's view shows. |
| BlockWorldState.MutableBlockWorldState.GetBlockState | src/main/java/gregtech/api/multiblock/MutableBlockWorldState.java:44-47 | The block state the world had where the last `update` read it; null before any update. |
| BlockWorldState.MutableBlockWorldState.GetOffsetState | src/main/java/gregtech/api/multiblock/MutableBlockWorldState.java:49-55 | The block one step along the facing from the cursor is returned, and the shared position ends where it started. |
| BlockWorldState.MutableBlockWorldState.GetTileEntity | src/main/java/gregtech/api/multiblock/MutableBlockWorldState.java:60-67 | The first call after an update asks the world once, at the cursor. Later calls return the cached answer, even null, without asking again. Position and block-state cache are untouched. |
| BlockWorldState.MutableBlockWorldState.GetMatchContext | src/main/java/gregtech/api/multiblock/MutableBlockWorldState.java:69-72 | Always the match context given to the constructor (the field is immutable). |
| BlockWorldState.MutableBlockWorldState.GetLayerContext | src/main/java/gregtech/api/multiblock/MutableBlockWorldState.java:74-77 | Always the layer context given to the constructor (the field is immutable). |
| PatternGeometry.ActualFacing | src/main/java/gregtech/api/multiblock/BlockPattern.java:190-207 | UP and DOWN ignore the facing. FRONT is the facing and BACK its opposite. LEFT is the facing that `rotateY` turns into the controller's facing, and RIGHT the one `rotateYCCW` turns into it. |
| PatternGeometry.Place | src/main/java/gregtech/api/multiblock/BlockPattern.java:175-182 | One case of the switch stores the coordinate on the world axis of the facing, negated for DOWN, WEST and NORTH, and leaves the other axes alone. |
| PatternGeometry.PlaceAll | src/main/java/gregtech/api/multiblock/BlockPattern.java:173-183 | After the first n rounds of the switch, each world axis holds the signed coordinate of the last pattern axis resolved onto it, or 0. |
| PatternGeometry.RelativeOffset | src/main/java/gregtech/api/multiblock/BlockPattern.java:172-185 | The world offset of (x, y, z). When the three pattern axes resolve to different world axes, each local coordinate lands, signed, on its own axis. |
| PatternGeometry.LastWrittenDistinct | src/main/java/gregtech/api/multiblock/BlockPattern.java:174-183 | With distinct world axes no round of the switch overwrites another. |
| PatternGeometry.SetActualRelativeOffset | src/main/java/gregtech/api/multiblock/BlockPattern.java:172-185 | The loop over the three pattern axes leaves the mutable position holding exactly `RelativeOffset`. |
| PatternGeometry.ActualFacingTurns | src/main/java/gregtech/api/multiblock/BlockPattern.java:190-207 | Turning the controller a quarter turn turns every resolved direction the same way. |
| PatternGeometry.PlaceTurns | src/main/java/gregtech/api/multiblock/BlockPattern.java:175-182 | One switch case commutes with a quarter turn about the vertical axis. |
| PatternGeometry.PlaceAllTurns | src/main/java/gregtech/api/multiblock/BlockPattern.java:173-183 | The first n rounds of the switch commute with turning the controller. |
| PatternGeometry.RelativeOffsetTurnsWithFacing | src/main/java/gregtech/api/multiblock/BlockPattern.java:172-207 | Turning a horizontal controller a quarter turn turns every cell offset by the same quarter turn, so a structure is recognised whichever way it faces. |
| PatternGeometry.RelativeOffsetInjective | src/main/java/gregtech/api/multiblock/BlockPattern.java:172-185 | With distinct axes, different local coordinates never share a world offset. |
| PatternGeometry.NextSliceOneStepAlong | src/main/java/gregtech/api/multiblock/BlockPattern.java:172-185 | With distinct axes, raising z by one moves the offset one block along the resolved facing of `structureDir[2]`. |
| BlockPatterns.Dimensions | src/main/java/gregtech/api/multiblock/BlockPattern.java:42-55 | fingerLength is the number of aisles and thumbLength the row count of aisle 0, or 0 when there is none. palmLength is the cell count of its row 0, or 0 when there is none. A rectangular array is fully covered by them. |
| BlockPatterns.InitializeCenterOffsets | src/main/java/gregtech/api/multiblock/BlockPattern.java:62-78 | The scan (x outermost, then y, then z) finds the first centre predicate in that order. It records the sums of the minimum and maximum repetitions of the aisles before the centre's aisle. None means the array has no centre predicate. |
| BlockPatterns.FirstCenterUnique | src/main/java/gregtech/api/multiblock/BlockPattern.java:62-78 | The recorded centre offset is determined by the array and the repetitions alone. |
| BlockPatterns.NewBlockPattern | src/main/java/gregtech/api/multiblock/BlockPattern.java:32-78 | The constructor fails with "Didn't found center predicate" exactly when there is no centre. Otherwise it keeps every argument, reads the dimensions off the array and records the first centre. |
| PatternSweep.CellPos | src/main/java/gregtech/api/multiblock/BlockPattern.java:111-116 | Definition: the world position of cell (a, b) of slice z is the local offset minus the centre cell's, turned by the facing, plus the controller position. `CenterCellAtController`, `CellsDistinct` and `SlicesStepAlongAisle` state its properties. |
| PatternSweep.CountFrom | src/main/java/gregtech/api/multiblock/BlockPattern.java:132-136 | The count-match loop after a matching cell: earlier tallies stay and each remaining tally grows by at most one. |
| PatternSweep.CellStep | src/main/java/gregtech/api/multiblock/BlockPattern.java:113-136 | The cell passes exactly when its predicate holds at the cell's world position (`CellPos`), seeing both contexts. A failing cell leaves every tally as it was; a passing one runs the count matches, which only ever increase tallies. |
| PatternSweep.RowFrom | src/main/java/gregtech/api/multiblock/BlockPattern.java:112-137 | A row's cells are tested in order until the first failure; tallies only grow. |
| PatternSweep.SliceFrom | src/main/java/gregtech/api/multiblock/BlockPattern.java:111-138 | A slice's rows are tested in order until the first failure; tallies only grow. |
| PatternSweep.Aisles | src/main/java/gregtech/api/multiblock/BlockPattern.java:104-152 | The aisle loop, as a function terminating over (retreats left, aisles left). A successful sweep's tallies are at least those it started with. Once the leading window is used up without the first aisle being found, the sweep succeeds exactly when every remaining aisle allows zero repetitions, and then nothing is tested and the scratch is unchanged. The per-aisle minimum is stated by `UnmatchableAisleFailsPattern` and `LeadingSearchMisses`. |
| PatternSweep.Slices | src/main/java/gregtech/api/multiblock/BlockPattern.java:106-151 | The repetition loop with the leading search, the retreat, the layer matcher and the minimum check. Tallies only grow. With the leading window used up and the first aisle not found, no slice is tested: the sweep succeeds exactly when the repetitions already counted reach this aisle's minimum and every later aisle allows zero, and the scratch is unchanged. The leading search and the retreat are stated by `LeadSlicesMiss` and `SlicesMissAisle`. |
| PatternSweep.SlicesUnfold | src/main/java/gregtech/api/multiblock/BlockPattern.java:108-137 | For any predicates, when the slice attempt fails: in the leading search, the sweep goes on at the next offset with one more repetition. Once the first aisle is found, it goes on with one more repetition if the minimum is already met. Otherwise it retreats to aisle 0 at the next leading offset with a fresh match context. |
| PatternSweep.SlicesUnfoldPassed | src/main/java/gregtech/api/multiblock/BlockPattern.java:108-144 | For any predicates, when the slice attempt passes: the first aisle counts as found and the sweep goes on one slice further with one more repetition. A layer matcher, where there is one, must accept the slice's layer context, or the sweep fails. |
| PatternSweep.RunValidators | src/main/java/gregtech/api/multiblock/BlockPattern.java:162-167 | Definition: the validators in order, each seeing the context the previous one left; the first failure gives no match. |
| PatternSweep.Finish | src/main/java/gregtech/api/multiblock/BlockPattern.java:154-169 | Definition: tallies in range, then the validators on the match context. `FinalChecks` is proved to compute it. |
| PatternSweep.Initial | src/main/java/gregtech/api/multiblock/BlockPattern.java:93-104 | Definition: aisle 0, r = 0, z = -maxZ, retreat offset one later, the first aisle not found, both contexts empty and every tally 0. |
| PatternSweep.CheckPattern | src/main/java/gregtech/api/multiblock/BlockPattern.java:92-170 | Definition: the sweep from `Initial`, then `Finish`. `CheckPatternAt` is proved to compute it; the lemmas of `PatternProperties` state what it answers. |
| PatternMatcher.BumpCounts | src/main/java/gregtech/api/multiblock/BlockPattern.java:132-136 | The count-match loop leaves contexts and tallies exactly as `CountFrom` says, at the cursor's position. |
| PatternMatcher.MatchCell | src/main/java/gregtech/api/multiblock/BlockPattern.java:113-136 | Moving the cursor to a cell and testing it computes `CellStep`. |
| PatternMatcher.MatchSlice | src/main/java/gregtech/api/multiblock/BlockPattern.java:111-138 | The row and cell loops compute `SliceFrom` and leave the scratch it describes. |
| PatternMatcher.RepetitionStep | src/main/java/gregtech/api/multiblock/BlockPattern.java:107-146 | One pass of the repetition loop either stops because the layer matcher failed, and then the sweep fails. Otherwise it reaches a state from which the sweep has the same outcome, having made progress. |
| PatternMatcher.MatchAisle | src/main/java/gregtech/api/multiblock/BlockPattern.java:106-151 | One pass of the aisle loop either returns null where the sweep fails, or keeps the loop invariant and the sweep's outcome. It either spends a retreat or moves to the next aisle. |
| PatternMatcher.FinalChecks | src/main/java/gregtech/api/multiblock/BlockPattern.java:154-167 | Passes exactly when every tally is in its range and all validators pass in order. The match context is then what the validators left. |
| PatternMatcher.CheckPatternAt | src/main/java/gregtech/api/multiblock/BlockPattern.java:92-170 | Returns null exactly when `CheckPattern` fails. Otherwise it returns a fresh match context holding exactly what `CheckPattern` computes. |
| PatternProperties.RelativeOffsetOfOrigin | src/main/java/gregtech/api/multiblock/BlockPattern.java:172-185 | The local origin maps to the zero offset for every axis choice and facing. |
| PatternProperties.ZeroWritesZero | src/main/java/gregtech/api/multiblock/BlockPattern.java:173-183 | Rounds of the switch on zero coordinates write only zeros. |
| PatternProperties.CenterCellAtController | src/main/java/gregtech/api/multiblock/BlockPattern.java:111-115 | The centre cell of the slice at z = 0 is tested at the controller position itself. |
| PatternProperties.CellsDistinct | src/main/java/gregtech/api/multiblock/BlockPattern.java:111-116 | With distinct axes, no two different (cell, slice) pairs are tested at the same world position. |
| PatternProperties.SlicesStepAlongAisle | src/main/java/gregtech/api/multiblock/BlockPattern.java:111-116 | With distinct axes, each slice lies one block further along `structureDir[2]` than the previous one. |
| PatternProperties.SuccessPassedFinalChecks | src/main/java/gregtech/api/multiblock/BlockPattern.java:154-169 | Unfolds `CheckPattern` and `Finish` for a successful match: every tally was in its range, and the context is what the validators left. It restates those definitions for a reader and is not a property in its own right. |
| PatternProperties.SweepTalliesNonNegative | src/main/java/gregtech/api/multiblock/BlockPattern.java:99-136 | Repeats, for the whole sweep, the tally clause `Aisles` already carries: one tally per count match, each at least 0. It is documentation, not an independent property. |
| PatternProperties.OneCellPatternAlwaysMatches | src/main/java/gregtech/api/multiblock/BlockPattern.java:118-130 | A one-cell pattern repeated exactly once yields the context its predicate leaves, whether or not the predicate holds. |
| PatternProperties.SliceMissesAtFirstCell | src/main/java/gregtech/api/multiblock/BlockPattern.java:118-131 | A slice whose first cell's predicate never holds fails at that cell, and no tally moves. |
| PatternProperties.LeadSlicesMiss | src/main/java/gregtech/api/multiblock/BlockPattern.java:107-130 | While the first aisle is looked for and aisle 0 never matches, every offset left in the window up to -minZ is tried and counted as a repetition. The aisle loop then succeeds exactly when those repetitions reach aisle 0's minimum and every later aisle allows zero, with no tally bumped. |
| PatternProperties.LeadingSearchMisses | src/main/java/gregtech/api/multiblock/BlockPattern.java:99-152 | When aisle 0 never matches, the whole sweep succeeds exactly when maxZ - minZ + 1 (or 0 for an empty window) reaches aisle 0's minimum and every later aisle allows zero repetitions, and every tally stays 0. |
| PatternProperties.AislesMissAisle | src/main/java/gregtech/api/multiblock/BlockPattern.java:104-152 | From any state on the way to a later aisle c that must appear but never matches, the aisle loop fails. |
| PatternProperties.SlicesMissAisle | src/main/java/gregtech/api/multiblock/BlockPattern.java:106-151 | From any state on the way to such an aisle c, the repetition loop fails: at c it retreats or gives up, and a retreat only restarts the search for aisle 0. |
| PatternProperties.FailedSliceMissesAisle | src/main/java/gregtech/api/multiblock/BlockPattern.java:118-131 | A failing slice on the way to such an aisle c moves the leading search on, retreats, or counts a repetition, and the sweep still fails. |
| PatternProperties.MatchedSliceMissesAisle | src/main/java/gregtech/api/multiblock/BlockPattern.java:137-146 | A matching slice on the way to such an aisle c, never at c itself, advances the sweep, and the sweep still fails. |
| PatternProperties.UnmatchableAisleFailsPattern | src/main/java/gregtech/api/multiblock/BlockPattern.java:104-152 | A later aisle that must appear at least once but whose first cell never matches rejects the pattern: `CheckPattern` gives no match. This is the per-aisle minimum at work through retreats. |
| WireRecipes.InsulationAmount | src/main/java/gregtech/loaders/oreprocessing/WireRecipeHandler.java:78-83 | Rubber plates per cable size: 1, 1, 2, 3, 5, always between 1 and 5. |
| WireRecipes.GetMaterialAmount | src/main/java/gregtech/loaders/oreprocessing/WireRecipeHandler.java:236-242 | -1 exactly when the cable tier exceeds the insulation tier. Otherwise it is max(36, 144 / (1 + gap / 2)), which lies in 36 .. 144. |
| WireRecipes.MaterialAmountNonIncreasing | src/main/java/gregtech/loaders/oreprocessing/WireRecipeHandler.java:240-241 | More tier headroom never needs more fluid. |
| WireRecipes.GetVoltageMultiplier | src/main/java/gregtech/loaders/oreprocessing/WireRecipeHandler.java:248-251 | 32 exactly for an ingot material with blast temperature at least 2800, and 8 for any other material. |
| WireRecipes.IsManualInsulatedCable | src/main/java/gregtech/loaders/oreprocessing/WireRecipeHandler.java:244-246 | Definition: the material conducts and its cable tier is at most LV. `GenerateWireRecipe` states that manual recipes appear exactly then. |
| WireRecipes.InsulationMaterials | src/main/java/gregtech/loaders/oreprocessing/WireRecipeHandler.java:49-55 | Definition: rubber at HV, styrene-butadiene rubber at LuV and silicone rubber at UHV, with the tiers as parameters. `InsulationRecipes` is stated for any list of insulations. |
| WireRecipes.Doubling | src/main/java/gregtech/loaders/oreprocessing/WireRecipeHandler.java:162-167 | Definition: two of a size make one of the next size. `CombiningRecipes` states when it is registered and `CombiningConserves` that it conserves metal. |
| WireRecipes.Splitting | src/main/java/gregtech/loaders/oreprocessing/WireRecipeHandler.java:169-173 | Definition: one of a size makes two of the size below. Stated as for `Doubling`. |
| WireRecipes.Quadrupling | src/main/java/gregtech/loaders/oreprocessing/WireRecipeHandler.java:175-182 | Definition: four of a size make one two sizes up. Stated as for `Doubling`. |
| WireRecipes.CombiningRecipes | src/main/java/gregtech/loaders/oreprocessing/WireRecipeHandler.java:159-209 | For size i: doubling exists iff i < 4, splitting iff i > 0, quadrupling iff i < 3, and no other recipe. Wires and cables follow the same rules. |
| WireRecipes.CombiningConserves | src/main/java/gregtech/loaders/oreprocessing/WireRecipeHandler.java:159-209 | Every combining recipe uses and makes only the five sizes and conserves the metal, counted in single wires. |
| WireRecipes.Pack | src/main/java/gregtech/loaders/oreprocessing/WireRecipeHandler.java:218-222 | Definition: 2^i wires of a size, with circuit 2^i, pack into one wire i sizes up. `PacksFromTier`, `CompressionComplete` and `CompressionConserves` state its registration and conservation. |
| WireRecipes.Unpack | src/main/java/gregtech/loaders/oreprocessing/WireRecipeHandler.java:227-231 | Definition: one wire of size i, with circuit 1, unpacks into 2^i single wires. Stated as for `Pack`. |
| WireRecipes.PacksFrom | src/main/java/gregtech/loaders/oreprocessing/WireRecipeHandler.java:217-223 | The inner packer loop yields exactly the packings of one start size into each size up to hex. |
| WireRecipes.PacksFromTier | src/main/java/gregtech/loaders/oreprocessing/WireRecipeHandler.java:216-224 | The outer packer loop yields exactly the packings with start sizes 0 .. 3 and steps 1 .. 4 - start. |
| WireRecipes.UnpacksFrom | src/main/java/gregtech/loaders/oreprocessing/WireRecipeHandler.java:226-232 | The unpacker loop yields exactly the unpackings of sizes 1 .. 4. |
| WireRecipes.CompressionRecipes | src/main/java/gregtech/loaders/oreprocessing/WireRecipeHandler.java:214-234 | Definition: the packings and unpackings for a conductor, nothing otherwise. `CompressionComplete`, `CompressionSound` and `CompressionConserves` state it. |
| WireRecipes.CompressionComplete | src/main/java/gregtech/loaders/oreprocessing/WireRecipeHandler.java:215-232 | For a conducting material every packing of 2^i wires into one wire i sizes up is registered, never past hex, and so is every unpacking into 2^i single wires. |
| WireRecipes.CompressionSound | src/main/java/gregtech/loaders/oreprocessing/WireRecipeHandler.java:214-234 | Nothing but packings and unpackings is registered, and nothing at all without cable properties. |
| WireRecipes.CompressionConserves | src/main/java/gregtech/loaders/oreprocessing/WireRecipeHandler.java:216-232 | Every packing and unpacking stays within the five sizes and conserves the metal. |
| WireRecipes.ManualIngredients | src/main/java/gregtech/loaders/oreprocessing/WireRecipeHandler.java:141-146 | The ingredient array has insulation amount + 1 entries: the wire first, then one rubber plate per remaining entry. |
| WireRecipes.ManualRecipes | src/main/java/gregtech/loaders/oreprocessing/WireRecipeHandler.java:140-156 | Exactly two recipes, both making the cable of the wire's size and conserving metal, neither with a circuit or a fluid. The first is the shapeless crafting recipe from `ManualIngredients`: the wire and `INSULATION_AMOUNT` rubber plates. The second is the packer recipe from the wire and one stack of as many plates as the crafting recipe uses. |
| WireRecipes.FromSingles | src/main/java/gregtech/loaders/oreprocessing/WireRecipeHandler.java:123-130 | Definition: `cableAmount` single wires, circuit 24 + size, the fluid, one cable. `InsulationRecipes` states when it is registered. |
| WireRecipes.FromWire | src/main/java/gregtech/loaders/oreprocessing/WireRecipeHandler.java:131-136 | Definition: one wire of the size, circuit 24, the fluid, one cable. `InsulationRecipes` states when it is registered. |
| WireRecipes.InsulationRecipes | src/main/java/gregtech/loaders/oreprocessing/WireRecipeHandler.java:118-137 | Soundness: every recipe is `FromWire` or, for a wire that is not single, `FromSingles`, for some insulation able to cover the cable tier and with getMaterialAmount × cableAmount of its fluid (`InsulationFluid`). No other inputs, circuit or fluid can appear, and an insulation whose amount is -1 yields nothing. `InsulationRecipesComplete` states the other direction. |
| WireRecipes.InsulationRecipesComplete | src/main/java/gregtech/loaders/oreprocessing/WireRecipeHandler.java:118-137 | Completeness: every insulation able to cover the cable tier yields `FromWire` with its fluid and, unless the wire is single, `FromSingles`. With the soundness clause of `InsulationRecipes`, this gives exact membership. |
| WireRecipes.GenerateWireRecipe | src/main/java/gregtech/loaders/oreprocessing/WireRecipeHandler.java:108-138 | Nothing for a non-conducting material. Every recipe makes the cable. A non-assembler recipe exists exactly when the cable is insulated by hand, that is, it conducts and its tier is at most LV. Every non-assembler recipe is one of `ManualRecipes(size)`, and when the cable is insulated by hand both manual recipes are present. For a conducting material the assembler recipes are exactly the insulation recipes for its cable tier (`InsulationRecipes`), in both directions of membership. |
| AssemblyLine.ISqrt | src/main/java/gregtech/api/recipes/machines/RecipeMapAssemblyLine.java:81-84 | The integer square root: r * r <= n < (r + 1) * (r + 1), standing in for the double square root's truncation. |
| AssemblyLine.ISqrtExact | src/main/java/gregtech/api/recipes/machines/RecipeMapAssemblyLine.java:81-82 | The integer square-root test recognises exactly the perfect squares. |
| AssemblyLine.SquareFromExact | src/main/java/gregtech/api/recipes/machines/RecipeMapAssemblyLine.java:81-82 | The upward search for a root finds one exactly when n is the square of a number at least its start. |
| AssemblyLine.DetermineSlotsGrid | src/main/java/gregtech/api/recipes/machines/RecipeMapAssemblyLine.java:78-98 | Definition: the four branches of determineSlotsGrid. `SlotsGridShape`, `GridHoldsUpToSixteen` and `GridTooSmallForSeventeen` state its shapes. |
| AssemblyLine.SlotsGridShape | src/main/java/gregtech/api/recipes/machines/RecipeMapAssemblyLine.java:78-98 | A square gives a square grid of n cells. Otherwise a multiple of 3 gives (3, n/3), an even count (2, n/2), anything else (4, 4). Every shape but the fallback has exactly n cells. |
| AssemblyLine.GridHoldsUpToSixteen | src/main/java/gregtech/api/recipes/machines/RecipeMapAssemblyLine.java:78-98 | Up to 16 inputs, the grid has a cell for every input. |
| AssemblyLine.GridTooSmallForSeventeen | src/main/java/gregtech/api/recipes/machines/RecipeMapAssemblyLine.java:93-96 | 17 inputs get the 4 × 4 fallback, which has fewer than 17 cells. |
| AssemblyLine.GridIndices | src/main/java/gregtech/api/recipes/machines/RecipeMapAssemblyLine.java:59-64 | The grid loops add rows × left slots, the k-th bound to handler slot k + 1, all of one kind and none an output. |
| AssemblyLine.GridCell | src/main/java/gregtech/api/recipes/machines/RecipeMapAssemblyLine.java:59-63 | Slot (i, j) sits 18 pixels per step right and down from the corner and is bound to index i × left + j + 1. |
| AssemblyLine.SwapIfNoItems | src/main/java/gregtech/api/recipes/machines/RecipeMapAssemblyLine.java:39-47 | The counts are swapped, and invertFluids set, exactly when there are no item slots. The total is kept; otherwise the counts are unchanged. |
| AssemblyLine.StartX | src/main/java/gregtech/api/recipes/machines/RecipeMapAssemblyLine.java:51 | Definition: the grid's left edge, so that the grid ends at x = 80. |
| AssemblyLine.StartY | src/main/java/gregtech/api/recipes/machines/RecipeMapAssemblyLine.java:52 | Definition: the grid's top edge; `(int) (down / 2.0 * 18)` is 9 * down exactly for every count. |
| AssemblyLine.SlotGroupOn | src/main/java/gregtech/api/recipes/machines/RecipeMapAssemblyLine.java:51-75 | Definition: the widgets of a group laid out on a given grid, in the order they are added. `InputGridOn`, `InputColumnOn` and `AddSlotGroupOn` state it. |
| AssemblyLine.SlotGroup | src/main/java/gregtech/api/recipes/machines/RecipeMapAssemblyLine.java:38-76 | Definition: the group on the grid for the swapped counts. `InputGroupParts`, `InputGridSlots`, `InputFluidSlots`, `OutputGroupLayout` and `AddInventorySlotGroup` state it. |
| AssemblyLine.InputGroupParts | src/main/java/gregtech/api/recipes/machines/RecipeMapAssemblyLine.java:54-72 | An input group is the data slot, then the grid, then the tank column when the tanks fit beside the grid. |
| AssemblyLine.InputGridOn | src/main/java/gregtech/api/recipes/machines/RecipeMapAssemblyLine.java:56-63 | On any grid, the data slot comes first and grid slot k is bound to index k. |
| AssemblyLine.InputGridSlots | src/main/java/gregtech/api/recipes/machines/RecipeMapAssemblyLine.java:56-63 | The data slot comes first; the next left × down slots are bound to 1 .. left × down in reading order, and are tanks exactly when there are no item slots. |
| AssemblyLine.InputColumnOn | src/main/java/gregtech/api/recipes/machines/RecipeMapAssemblyLine.java:65-71 | On any grid, tank i of the other kind follows the grid beside row i. |
| AssemblyLine.InputFluidSlots | src/main/java/gregtech/api/recipes/machines/RecipeMapAssemblyLine.java:65-71 | After the grid come the tanks of the other kind, only when all fit beside the grid; tank i sits at row i's height, 90 pixels right of the grid. |
| AssemblyLine.InputSlotIndicesDistinct | src/main/java/gregtech/api/recipes/machines/RecipeMapAssemblyLine.java:61 | No two grid slots share an index, and none takes the data slot's index 0. |
| AssemblyLine.OutputGroupLayout | src/main/java/gregtech/api/recipes/machines/RecipeMapAssemblyLine.java:73-75 | An output group is one output slot bound to index 18, 72 pixels right of the grid's left edge, at the top. |
| AssemblyLine.SlotLayout.constructor | src/main/java/gregtech/api/recipes/machines/RecipeMapAssemblyLine.java:29 | A new window holds no widgets. |
| AssemblyLine.SlotLayout.AddSlot | src/main/java/gregtech/api/recipes/machines/RecipeMapAssemblyLine.java:62 | A slot request is appended to the window's widgets. |
| AssemblyLine.SlotLayout.AddWidget | src/main/java/gregtech/api/recipes/machines/RecipeMapAssemblyLine.java:56-57 | A widget is appended to the window's widgets. |
| AssemblyLine.AddGridSlots | src/main/java/gregtech/api/recipes/machines/RecipeMapAssemblyLine.java:59-64 | The nested loops append exactly the grid `GridRows` describes. |
| AssemblyLine.AddFluidSlots | src/main/java/gregtech/api/recipes/machines/RecipeMapAssemblyLine.java:67-70 | The tank loop appends exactly the tank column. |
| AssemblyLine.AddSlotGroupOn | src/main/java/gregtech/api/recipes/machines/RecipeMapAssemblyLine.java:51-75 | Given the swapped counts and the grid, the method appends exactly the group layout. |
| AssemblyLine.AddInventorySlotGroup | src/main/java/gregtech/api/recipes/machines/RecipeMapAssemblyLine.java:38-76 | Appends exactly the layout of a group with these counts. |
| AssemblyLine.CreateUITemplate | src/main/java/gregtech/api/recipes/machines/RecipeMapAssemblyLine.java:28-35 | The window is the picture, then the input group's layout, then the output group's layout. |
| LargeBoiler.JavaDiv | src/main/java/gregtech/common/metatileentities/multi/MetaTileEntityLargeBoilerNew.java:181-183 | Java int division by a positive divisor truncates towards zero. |
| LargeBoiler.JavaRem | src/main/java/gregtech/common/metatileentities/multi/MetaTileEntityLargeBoilerNew.java:184 | Java `%` takes the dividend's sign and completes `a == b * (a / b) + a % b`. |
| LargeBoiler.Clamp | src/main/java/gregtech/common/metatileentities/multi/MetaTileEntityLargeBoilerNew.java:152 | The clamp lies in the range, keeps values inside it, and sends values outside it to the nearer bound. |
| LargeBoiler.ClickedThrottle | src/main/java/gregtech/common/metatileentities/multi/MetaTileEntityLargeBoilerNew.java:148-153 | A click always leaves the throttle in 20 .. 100. `ClickMovesByStep` states the exact step. |
| LargeBoiler.ClickMovesByStep | src/main/java/gregtech/common/metatileentities/multi/MetaTileEntityLargeBoilerNew.java:150-152 | From a throttle in range, "add" raises it by exactly 1 with shift or 5 without, and anything else lowers it by the same step. A step that would pass 100 (or 20) stops at that bound. The throttle stays put exactly at the bound it is pushed against. |
| LargeBoiler.ClickUndone | src/main/java/gregtech/common/metatileentities/multi/MetaTileEntityLargeBoilerNew.java:150-152 | A raise followed by a lower with the same modifier restores the throttle while no bound is hit. |
| LargeBoiler.CheckStructureComponents | src/main/java/gregtech/common/metatileentities/multi/MetaTileEntityLargeBoilerNew.java:455-462 | Definition: at least one fluid input hatch, a second one or an item input bus, and a fluid output hatch. `StructureComponentsCases` and `StructureComponentsMonotone` state it. |
| LargeBoiler.StructureComponentsCases | src/main/java/gregtech/common/metatileentities/multi/MetaTileEntityLargeBoilerNew.java:455-462 | Accepted structures have a fluid input and a fluid output. Two fluid inputs suffice; with one, an item input decides. |
| LargeBoiler.StructureComponentsMonotone | src/main/java/gregtech/common/metatileentities/multi/MetaTileEntityLargeBoilerNew.java:455-462 | Adding parts never breaks an accepted structure. |
| LargeBoiler.WaterCarry | src/main/java/gregtech/common/metatileentities/multi/MetaTileEntityLargeBoilerNew.java:181-184 | Definition: the water requested for the tick's steam and the steam remainder carried. `WaterCarryConserves` states the accounting. |
| LargeBoiler.SolidCarry | src/main/java/gregtech/common/metatileentities/multi/MetaTileEntityLargeBoilerNew.java:311-313 | Definition: the solid-fuel remainder carry. `SolidCarryBounds` states the accounting and the bounds. |
| LargeBoiler.SetupRecipe | src/main/java/gregtech/common/metatileentities/multi/MetaTileEntityLargeBoilerNew.java:239-334 | Definition: the chosen fuel's duration and its effect on the fields. `SuperHeatSwitch` and `NoFuelStopsGeneration` state it. |
| LargeBoiler.HeatStep | src/main/java/gregtech/common/metatileentities/multi/MetaTileEntityLargeBoilerNew.java:157-174 | Definition: super-heating, then one tick of fuel or cooling. `HeatStepBurns`, `TemperatureCapped` and `SuperHeatPinsTemperature` state it. |
| LargeBoiler.WaterStep | src/main/java/gregtech/common/metatileentities/multi/MetaTileEntityLargeBoilerNew.java:176-214 | Definition: the drain request, whether the drain is carried out (only when `getOffsetTimer() % 20 == 0`, lines 186-189) or simulated, the carry charged on every tick, the explosion flag and the steam. `WaterStepFrame`, `WaterStepKeepsCarry` and `TickDrainsOnlyOnSecond` state it. |
| LargeBoiler.RefuelStep | src/main/java/gregtech/common/metatileentities/multi/MetaTileEntityLargeBoilerNew.java:219-231 | Definition: a boiler out of fuel takes the offered fuel. `RefuelStepFrame` and `RefuelStepKeepsCarry` state it. |
| LargeBoiler.Tick | src/main/java/gregtech/common/metatileentities/multi/MetaTileEntityLargeBoilerNew.java:156-237 | Definition: heat and water when generating, then refuelling, then the pending deactivation. `TickBurnsOneTick`, `TickRefuelsWhenBurntOut`, `TickKeepsCarries` and `RestingBoilerStaysAtRest` state it. |
| LargeBoiler.TickDrainsOnlyOnSecond | src/main/java/gregtech/common/metatileentities/multi/MetaTileEntityLargeBoilerNew.java:181-189 | A tick drains water for real exactly when it requests water on a tick with `getOffsetTimer() % 20 == 0`. On the other ticks the drain is only simulated, yet the carry is charged as the accounting of lines 181-184 says. |
| LargeBoiler.WaterCarryConserves | src/main/java/gregtech/common/metatileentities/multi/MetaTileEntityLargeBoilerNew.java:181-184 | The water requested, in steam units, equals the steam generated plus the growth of the carry. A carry in 0 .. S-1 stays there and the request is never negative. |
| LargeBoiler.SolidCarryBounds | src/main/java/gregtech/common/metatileentities/multi/MetaTileEntityLargeBoilerNew.java:311-313 | The carry stays in 0 .. 79. The burn time grows by 0 or 1, which with the new carry accounts exactly for the old carry plus the burn time's remainder. |
| LargeBoiler.SuperHeatSwitch | src/main/java/gregtech/common/metatileentities/multi/MetaTileEntityLargeBoilerNew.java:316-327 | A solid-fuel increase above 5000 becomes 0 and sets the super increase to 20. A smaller one is kept and leaves the super increase alone. Either way the generated EU/t is the boiler type's and the carry moves. |
| LargeBoiler.NoFuelStopsGeneration | src/main/java/gregtech/common/metatileentities/multi/MetaTileEntityLargeBoilerNew.java:332-333 | Finding no fuel sets the generated EU/t to 0, reports duration 0 and changes nothing else. |
| LargeBoiler.HeatStepBurns | src/main/java/gregtech/common/metatileentities/multi/MetaTileEntityLargeBoilerNew.java:164-171 | Burning below the maximum uses exactly one tick of fuel. The temperature stays capped at the maximum. A deactivation is flagged exactly when the fuel runs out. |
| LargeBoiler.TickBurnsOneTick | src/main/java/gregtech/common/metatileentities/multi/MetaTileEntityLargeBoilerNew.java:156-237 | A whole tick with more than one tick of fuel left, below the maximum, decrements the fuel by exactly 1. |
| LargeBoiler.TickRefuelsWhenBurntOut | src/main/java/gregtech/common/metatileentities/multi/MetaTileEntityLargeBoilerNew.java:219-236 | When the last tick of fuel burns, the tick takes the offered fuel. The boiler stays active only if there was fuel and it was active; no deactivation is left pending. |
| LargeBoiler.TemperatureCapped | src/main/java/gregtech/common/metatileentities/multi/MetaTileEntityLargeBoilerNew.java:164-174 | Without super-heating, a temperature at or below the maximum stays at or below it. |
| LargeBoiler.SuperHeatPinsTemperature | src/main/java/gregtech/common/metatileentities/multi/MetaTileEntityLargeBoilerNew.java:158-174 | With super-heating the fuel timer never moves, and the temperature is at least the maximum (less 20 on a cooling tick). |
| LargeBoiler.RestingBoilerStaysAtRest | src/main/java/gregtech/common/metatileentities/multi/MetaTileEntityLargeBoilerNew.java:156-237 | A reset boiler that finds no fuel is unchanged by a tick, drains no water and does not explode. |
| LargeBoiler.WaterStepFrame | src/main/java/gregtech/common/metatileentities/multi/MetaTileEntityLargeBoilerNew.java:176-214 | The water part changes only the water carry, the no-water flag and the last steam output. |
| LargeBoiler.RefuelStepFrame | src/main/java/gregtech/common/metatileentities/multi/MetaTileEntityLargeBoilerNew.java:219-231 | Refuelling leaves temperature, water carry and throttle alone, and does nothing while fuel is left. |
| LargeBoiler.WaterStepKeepsCarry | src/main/java/gregtech/common/metatileentities/multi/MetaTileEntityLargeBoilerNew.java:181-184 | The water part keeps the water carry in 0 .. S-1. |
| LargeBoiler.RefuelStepKeepsCarry | src/main/java/gregtech/common/metatileentities/multi/MetaTileEntityLargeBoilerNew.java:311-313 | Refuelling keeps the fuel carry in 0 .. 79. |
| LargeBoiler.TickKeepsCarries | src/main/java/gregtech/common/metatileentities/multi/MetaTileEntityLargeBoilerNew.java:156-237 | Every tick keeps both remainder carries within their divisors. |
| LargeBoiler.GetInteger | src/main/java/gregtech/common/metatileentities/multi/MetaTileEntityLargeBoilerNew.java:354-363 | getInteger reads a numeric tag of either width and gives 0 for a missing or non-numeric tag. |
| LargeBoiler.GetBoolean | src/main/java/gregtech/common/metatileentities/multi/MetaTileEntityLargeBoilerNew.java:356 | getBoolean is true only for a present numeric tag: a byte tag that is not 0, or an int tag whose low eight bits are not 0. |
| LargeBoiler.Written | src/main/java/gregtech/common/metatileentities/multi/MetaTileEntityLargeBoilerNew.java:337-349 | Definition: the nine entries set on the tag. `NbtRoundTrip` states that they read back. |
| LargeBoiler.Restored | src/main/java/gregtech/common/metatileentities/multi/MetaTileEntityLargeBoilerNew.java:352-366 | Definition: the fields read back, the throttle only when present, isActive from the fuel left. `NbtRoundTrip` and `NbtMissingThrottleKept` state it. |
| LargeBoiler.NbtRoundTrip | src/main/java/gregtech/common/metatileentities/multi/MetaTileEntityLargeBoilerNew.java:337-366 | Loading what was saved restores all nine saved fields. isActive becomes "fuel left", and unsaved fields keep the loading boiler's values. |
| LargeBoiler.NbtMissingThrottleKept | src/main/java/gregtech/common/metatileentities/multi/MetaTileEntityLargeBoilerNew.java:362-364 | A tag without a throttle entry leaves the throttle as it was. |
| LargeBoiler.FuelsCarry | src/main/java/gregtech/common/metatileentities/multi/MetaTileEntityLargeBoilerNew.java:558-572 | One reported burn time per slot listed. `FuelsCarryBounded` and `ListingFuelsMovesCarry` state what it does to the carry. |
| LargeBoiler.FuelsCarryBounded | src/main/java/gregtech/common/metatileentities/multi/MetaTileEntityLargeBoilerNew.java:558-572 | Listing the item fuels keeps the carry in 0 .. 79. |
| LargeBoiler.ListingFuelsMovesCarry | src/main/java/gregtech/common/metatileentities/multi/MetaTileEntityLargeBoilerNew.java:563-568 | Listing a 100-tick fuel from a zero carry leaves a carry of 20, although getFuels is a query. |
| LargeBoiler.LargeBoilerState.constructor | src/main/java/gregtech/common/metatileentities/multi/MetaTileEntityLargeBoilerNew.java:63-85 | A new boiler has full throttle, one EU/t generated, and every other field zero or false. |
| LargeBoiler.LargeBoilerState.HandleDisplayClick | src/main/java/gregtech/common/metatileentities/multi/MetaTileEntityLargeBoilerNew.java:148-153 | Only the throttle changes, to the clicked value. |
| LargeBoiler.LargeBoilerState.InvalidateStructure | src/main/java/gregtech/common/metatileentities/multi/MetaTileEntityLargeBoilerNew.java:101-117 | Temperature, fuel, EU/t, both increases and both carries become 0, the flags false and the throttle 100. The pending-update flag and the last steam output survive. |
| LargeBoiler.LargeBoilerState.SetActive | src/main/java/gregtech/common/metatileentities/multi/MetaTileEntityLargeBoilerNew.java:368-377 | Only isActive changes. |
| LargeBoiler.LargeBoilerState.SetupRecipeAndConsumeInputs | src/main/java/gregtech/common/metatileentities/multi/MetaTileEntityLargeBoilerNew.java:239-334 | The fields and the returned duration are what `SetupRecipe` gives for the chosen fuel. |
| LargeBoiler.LargeBoilerState.HeatUp | src/main/java/gregtech/common/metatileentities/multi/MetaTileEntityLargeBoilerNew.java:157-174 | The temperature part updates the fields as `HeatStep` says. |
| LargeBoiler.LargeBoilerState.UseWater | src/main/java/gregtech/common/metatileentities/multi/MetaTileEntityLargeBoilerNew.java:176-214 | The water part updates the fields, requests water, reports whether the drain is carried out and decides the explosion as `WaterStep` says. Water is drained for real exactly when a request is made on a tick with `getOffsetTimer() % 20 == 0`. |
| LargeBoiler.LargeBoilerState.ConsumeMoreFuel | src/main/java/gregtech/common/metatileentities/multi/MetaTileEntityLargeBoilerNew.java:219-231 | The refuelling part updates the fields as `RefuelStep` says. |
| LargeBoiler.LargeBoilerState.UpdateFormedValid | src/main/java/gregtech/common/metatileentities/multi/MetaTileEntityLargeBoilerNew.java:156-237 | One tick updates the fields, requests water, reports whether the drain is carried out and decides the explosion as `Tick` says. Water is drained for real exactly when a request is made on a tick with `getOffsetTimer() % 20 == 0`. |
| LargeBoiler.LargeBoilerState.WriteToNbt | src/main/java/gregtech/common/metatileentities/multi/MetaTileEntityLargeBoilerNew.java:337-349 | The tag gains the nine saved fields, which read back as the boiler's values. |
| LargeBoiler.LargeBoilerState.ReadFromNbt | src/main/java/gregtech/common/metatileentities/multi/MetaTileEntityLargeBoilerNew.java:352-366 | The fields become what `Restored` reads from the tag. |
| LargeBoiler.LargeBoilerState.GetLightValueForPart | src/main/java/gregtech/common/metatileentities/multi/MetaTileEntityLargeBoilerNew.java:402-404 | The light value is 0 or 15; it is 15 exactly when there is a part and the boiler is active. |
| LargeBoiler.LargeBoilerState.GetFuelsItemDurations | src/main/java/gregtech/common/metatileentities/multi/MetaTileEntityLargeBoilerNew.java:553-572 | The item loop reports per slot what `FuelsCarry` says and moves the fuel carry the same way; nothing else changes. |
| EmptyRecipeProperties.Store | src/main/java/gregtech/api/recipes/recipeproperties/EmptyRecipePropertyStorage.java:16-18 | Store refuses; the storage stays empty, so the property is still absent. |
| EmptyRecipeProperties.Remove | src/main/java/gregtech/api/recipes/recipeproperties/EmptyRecipePropertyStorage.java:21-23 | Remove refuses; the storage stays empty. |
| EmptyRecipeProperties.Freeze | src/main/java/gregtech/api/recipes/recipeproperties/EmptyRecipePropertyStorage.java:26-28 | Freezing has no effect; the contents stay empty. |
| EmptyRecipeProperties.Copy | src/main/java/gregtech/api/recipes/recipeproperties/EmptyRecipePropertyStorage.java:31-33 | The copy is null. |
| EmptyRecipeProperties.GetSize | src/main/java/gregtech/api/recipes/recipeproperties/EmptyRecipePropertyStorage.java:36-38 | The size is the size of the empty contents, 0. |
| EmptyRecipeProperties.GetRecipeProperties | src/main/java/gregtech/api/recipes/recipeproperties/EmptyRecipePropertyStorage.java:41-43 | The entry set is the entries of the empty contents, hence empty. |
| EmptyRecipeProperties.GetRecipePropertyValue | src/main/java/gregtech/api/recipes/recipeproperties/EmptyRecipePropertyStorage.java:46-48 | The answer is what empty contents give for any property: the supplied default. |
| EmptyRecipeProperties.HasRecipeProperty | src/main/java/gregtech/api/recipes/recipeproperties/EmptyRecipePropertyStorage.java:51-53 | No property is held. |
| EmptyRecipeProperties.GetRecipePropertyKeys | src/main/java/gregtech/api/recipes/recipeproperties/EmptyRecipePropertyStorage.java:56-58 | The key set is the keys of the empty contents, hence empty. |
| EmptyRecipeProperties.GetRawRecipePropertyValue | src/main/java/gregtech/api/recipes/recipeproperties/EmptyRecipePropertyStorage.java:61-63 | The raw value of every key is null. |
| EmptyRecipeProperties.StoreIsForgotten | src/main/java/gregtech/api/recipes/recipeproperties/EmptyRecipePropertyStorage.java:16-63 | After any store, every query answers as the contents left by the store would: not held, the default, not a key, raw null, size 0. |
| EmptyRecipeProperties.AnswersAgree | src/main/java/gregtech/api/recipes/recipeproperties/EmptyRecipePropertyStorage.java:36-63 | The answers agree: size equals the number of keys, and a property is held exactly when its key is listed and exactly when it has a raw value. |

## Left out

- BlockPatterns.NewBlockPattern: the constructor is modelled only for arrays where every aisle has at least as many rows as aisle 0, every row has at least as many cells as aisle 0's first row, and there is a repetition range for every aisle. Java still constructs some patterns that break this, because its centre search stops at the first centre (`break loop` at BlockPattern.java line 70). For example, it accepts a later aisle shorter than aisle 0 when the centre lies before it, or fewer repetition ranges than aisles. `checkPatternAt` would then throw ArrayIndexOutOfBoundsException. These patterns and that exception are not modelled. `Sweepable` demands the same of the sweep, plus exactly three structure directions (Java would also throw on fewer).
- PatternSweep.Slices: the contract states tally growth and the used-up-window case. Every transition of the repetition loop, including the leading search and the retreat, is stated for all predicates by `SlicesUnfold` and `SlicesUnfoldPassed`. Whole-sweep outcomes are stated for predicates that never match (`LeadSlicesMiss`, `SlicesMissAisle`). There is no characterisation of a successful match as a list of matching slices with their offsets and per-aisle repetition counts. With context-dependent predicates, the only such description is the function itself.
- PatternSweep.Aisles: as for `Slices`, each step is stated for all predicates by `SlicesUnfold` and `SlicesUnfoldPassed`, and the per-aisle minimum is stated through `UnmatchableAisleFailsPattern` and `LeadingSearchMisses`, not as a repetition count per aisle of a successful match.
- `getOffsetState` on an immutable position (MutableBlockWorldState.java line 57) is not modelled, because the matcher always hands the cursor a `MutableBlockPos`.
- The Minecraft types are abstract. This covers `World`, `IBlockState`, `TileEntity`, `EnumFacing`, `BlockPos` and `IntRange`. The world is a pair of total functions and does not change during a match. `IntRange.isInsideOf` is an uninterpreted predicate.
- `IBlockWorldState`, `IPatternMatchContext` and `PatternCenterPredicate` have no behaviour of their own. A predicate receives a snapshot of what the cursor shows and returns its answer together with the contexts it leaves. The centre marker is a flag on the predicate.
- LEFT and RIGHT are resolved only against a horizontal facing, because Minecraft's `rotateY` throws for UP and DOWN.
- Java int overflow is not modelled in the matcher's counters or in the recipe and boiler arithmetic; integers are unbounded. The exception is `increment`, which wraps explicitly.
- A match context holding a non-Integer under a key that `increment` is asked to add to makes Java throw a ClassCastException. `Increment` requires the caller not to do that instead of modelling the exception.
- The getters `getFingerLength`, `getThumbLength` and `getPalmLength` are the pattern's fields.
- `processWireSingle` (extruder, wiremill and hand-crafting recipes for single wires) is not modelled. It uses only the voltage multiplier, which is modelled.
- The recipe registries, `OreDictUnifier`, `ModHandler`, recipe durations and EU/t are not modelled. A recipe is an abstract descriptor of its machine, inputs, circuit, fluid and output.
- `cableAmount` is a parameter, because it comes from `OrePrefix.materialAmount`, which is not part of this model. `GTUtility.getTierByVoltage` and the GTValues tiers are parameters too.
- `INSULATION_MATERIALS` is a `HashMap`, so its iteration order is a list given by the caller. The recipes are specified by membership, not order.
- The assembly line picture widget and its drawing are left out, and the window is a list of widgets. `RecipeMap.addSlot` is recorded as the slot it asks for.
- `Math.sqrt(n) % 1 == 0` is replaced by an exact integer perfect-square test. This agrees for every slot count an item handler can have.
- Boiler floating point is left out: the throttle multiplier and efficiency (lines 379-385) and the duration formulas that use them (255-288 and 316). Fluid-fuel durations arrive in the fuel offer. The solid-fuel scaling by duration multiplier and throttle is an uninterpreted `scale` function.
- The boiler's inventory scan (tanks, slots, recipe-map lookups, container items) is not modelled. Its outcome is a parameter: diesel, semi-fluid, solid fuel or none. Whether the water drain returned water is a parameter, and `getOffsetTimer() % 20 == 0` is a boolean. It is also the `doWaterDrain` flag: the model reports whether the drain is carried out, but the tank contents are not modelled.
- Boiler world effects are left out: explosions, firebox block replacement, network sync, `markDirty`, logging and the `System.out` prints. The explosion is reported as a flag.
- `GTValues.STEAM_PER_WATER` is a positive constant of the boiler object.
- `LargeBoilerType` supplies EU/t, temperature increase and maximum temperature as a record.
- NBT tag names are datatype constructors. What the base class saves is an `Other` entry that is carried through untouched. This holds because an `Other` name is kept apart from the boiler's nine tag names. A compound in which the base class used one of those names would have that entry overwritten in Java, and such a compound is not modelled. Tags are int, byte or non-numeric. Short, long, float and double tags are not distinguished, because the boiler writes none.
- LargeBoiler.LargeBoilerState.GetFuelsItemDurations: only the item part of `getFuels` is modelled, with one reported duration per slot. The unformed-structure early return, the fluid part, the capacities and the grouping of fuel infos by name are left out.
- Registering handlers (`register`) and the recipe maps' own behaviour are not part of this model.
