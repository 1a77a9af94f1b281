/**
 * The recipe rules of WireRecipeHandler: how much insulation fluid a cable needs, which
 * wires are insulated by hand, and which doubling, splitting, quadrupling, packing and
 * unpacking recipes connect the five wire and cable sizes. Recipes are abstract
 * descriptors; registering them is outside the model.
 */
module WireRecipes {
  import opened Wrappers

  /** The sizes single, double, quadruple, octal and hex, by index in WIRE_DOUBLING_ORDER (and CABLE_DOUBLING_ORDER). */
  const DOUBLING_ORDER_LENGTH: int := 5

  predicate IsSize(i: int) {
    0 <= i < DOUBLING_ORDER_LENGTH
  }

  /** The insulation fluids of INSULATION_MATERIALS. */
  datatype Fluid = Rubber | StyreneButadieneRubber | SiliconeRubber

  datatype Item = Wire(size: int) | Cable(size: int) | RubberPlate

  datatype ItemStack = ItemStack(item: Item, count: int)

  datatype FluidStack = FluidStack(fluid: Fluid, amount: int)

  /** The machine (or crafting grid) a recipe is registered for. */
  datatype Machine = Crafting | Packer | Unpacker | Assembler

  /** An abstract recipe: its inputs, programmed-circuit number, fluid input and output. */
  datatype Recipe = Recipe(machine: Machine, inputs: seq<ItemStack>, circuit: Option<int>,
                           fluid: Option<FluidStack>, output: ItemStack)

  /** The parts of a material these rules look at; `voltage` is present exactly when cableProperties is non-null. */
  datatype Material = Material(isIngot: bool, blastFurnaceTemperature: int, cableVoltage: Option<int>)

  /** An INSULATION_MATERIALS entry: a fluid and the highest cable tier it may insulate. */
  datatype Insulation = Insulation(fluid: Fluid, tier: int)

  /** INSULATION_MATERIALS, given the GTValues tiers HV, LuV and UHV. */
  function InsulationMaterials(hv: int, luv: int, uhv: int): seq<Insulation> {
    [Insulation(Rubber, hv), Insulation(StyreneButadieneRubber, luv), Insulation(SiliconeRubber, uhv)]
  }

  /** INSULATION_AMOUNT: rubber plates needed to insulate each cable size by hand. */
  function InsulationAmount(size: int): (n: int)
    requires IsSize(size)
    ensures 1 <= n <= 5
  {
    [1, 1, 2, 3, 5][size]
  }

  function Pow2(n: nat): (p: int)
    ensures p >= 1
  {
    if n == 0 then 1 else 2 * Pow2(n - 1)
  }

  /** How many single wires' worth of metal a stack holds; rubber plates hold none. */
  function Units(s: ItemStack): int {
    match s.item
    case Wire(size) => if size >= 0 then s.count * Pow2(size) else 0
    case Cable(size) => if size >= 0 then s.count * Pow2(size) else 0
    case RubberPlate => 0
  }

  function UnitsOf(stacks: seq<ItemStack>): int {
    if stacks == [] then 0 else Units(stacks[0]) + UnitsOf(stacks[1..])
  }

  lemma UnitsOfCons(a: ItemStack, rest: seq<ItemStack>)
    ensures UnitsOf([a] + rest) == Units(a) + UnitsOf(rest)
  {
    assert ([a] + rest)[1..] == rest;
  }

  /** A recipe neither creates nor destroys metal. */
  predicate Conserves(r: Recipe) {
    UnitsOf(r.inputs) == Units(r.output)
  }

  /** Every wire or cable a recipe mentions is one of the five sizes. */
  predicate SizesInRange(r: Recipe) {
    && (forall k | 0 <= k < |r.inputs| :: !r.inputs[k].item.RubberPlate? ==> IsSize(r.inputs[k].item.size))
    && (!r.output.item.RubberPlate? ==> IsSize(r.output.item.size))
  }

  /**
   * getMaterialAmount: -1 when the fluid cannot insulate a cable of this tier; otherwise
   * 144 mB, less for every two tiers of headroom, but never below 36 mB.
   */
  function GetMaterialAmount(cableTier: int, insulationTier: int): (r: int)
    ensures r == -1 <==> cableTier > insulationTier
    ensures cableTier <= insulationTier ==> 36 <= r <= 144
    ensures cableTier <= insulationTier ==>
      r == (if insulationTier - cableTier < 2 then 144
            else if insulationTier - cableTier < 4 then 72
            else if insulationTier - cableTier < 6 then 48
            else 36)
  {
    if cableTier > insulationTier then -1
    else
      var insulationDiscount := (insulationTier - cableTier) / 2;
      if 36 < 144 / (1 + insulationDiscount) then 144 / (1 + insulationDiscount) else 36
  }

  /** More headroom never makes insulating a cable dearer. */
  lemma MaterialAmountNonIncreasing(cableTier: int, tier1: int, tier2: int)
    requires cableTier <= tier1 <= tier2
    ensures GetMaterialAmount(cableTier, tier2) <= GetMaterialAmount(cableTier, tier1)
  {
  }

  /** isManualInsulatedCable: the material conducts and its cable tier is ULV or LV. */
  predicate IsManualInsulatedCable(m: Material, tierByVoltage: int -> int) {
    m.cableVoltage.Some? && tierByVoltage(m.cableVoltage.value) <= 1
  }

  /** getVoltageMultiplier: 32 for an ingot material melted at 2800 K or more, 8 otherwise. */
  function GetVoltageMultiplier(m: Material): (r: int)
    ensures r == 32 <==> m.isIngot && m.blastFurnaceTemperature >= 2800
    ensures r == 8 <==> !(m.isIngot && m.blastFurnaceTemperature >= 2800)
  {
    if m.isIngot && m.blastFurnaceTemperature >= 2800 then 32 else 8
  }

  function SizeItem(cable: bool, size: int): Item {
    if cable then Cable(size) else Wire(size)
  }

  function One(item: Item): ItemStack {
    ItemStack(item, 1)
  }

  /** Two of a size make one of the next size up. */
  function Doubling(cable: bool, i: int): Recipe {
    Recipe(Crafting, [One(SizeItem(cable, i)), One(SizeItem(cable, i))], None, None, One(SizeItem(cable, i + 1)))
  }

  /** One of a size makes two of the next size down. */
  function Splitting(cable: bool, i: int): Recipe {
    Recipe(Crafting, [One(SizeItem(cable, i))], None, None, ItemStack(SizeItem(cable, i - 1), 2))
  }

  /** Four of a size make one of the size two steps up. */
  function Quadrupling(cable: bool, i: int): Recipe {
    Recipe(Crafting, [One(SizeItem(cable, i)), One(SizeItem(cable, i)), One(SizeItem(cable, i)), One(SizeItem(cable, i))],
           None, None, One(SizeItem(cable, i + 2)))
  }

  /**
   * generateWireCombiningRecipe (cable = false) and generateCableCombiningRecipe
   * (cable = true) for size `i`: doubling below hex, splitting above single, quadrupling
   * below octal. Every recipe stays within the five sizes and conserves metal.
   */
  function CombiningRecipes(cable: bool, i: int): (rs: seq<Recipe>)
    requires IsSize(i)
    ensures Doubling(cable, i) in rs <==> i < 4
    ensures Splitting(cable, i) in rs <==> i > 0
    ensures Quadrupling(cable, i) in rs <==> i < 3
    ensures forall r | r in rs :: r == Doubling(cable, i) || r == Splitting(cable, i) || r == Quadrupling(cable, i)
  {
    (if i < DOUBLING_ORDER_LENGTH - 1 then [Doubling(cable, i)] else [])
    + (if i > 0 then [Splitting(cable, i)] else [])
    + (if i < 3 then [Quadrupling(cable, i)] else [])
  }

  /** Combining recipes stay within the five sizes and conserve metal. */
  lemma CombiningConserves(cable: bool, i: int)
    requires IsSize(i)
    ensures forall r | r in CombiningRecipes(cable, i) :: SizesInRange(r) && Conserves(r)
  {
    if i < 4 {
      DoublingConserves(cable, i);
    }
    if i > 0 {
      SplittingConserves(cable, i);
    }
    if i < 3 {
      QuadruplingConserves(cable, i);
    }
  }

  lemma DoublingConserves(cable: bool, i: int)
    requires 0 <= i < 4
    ensures SizesInRange(Doubling(cable, i)) && Conserves(Doubling(cable, i))
  {
    var one := One(SizeItem(cable, i));
    UnitsOfCons(one, []);
    UnitsOfCons(one, [one]);
    assert [one] + [one] == [one, one];
    assert Pow2(i + 1) == 2 * Pow2(i);
  }

  lemma SplittingConserves(cable: bool, i: int)
    requires 0 < i < 5
    ensures SizesInRange(Splitting(cable, i)) && Conserves(Splitting(cable, i))
  {
    UnitsOfCons(One(SizeItem(cable, i)), []);
    assert Pow2(i) == 2 * Pow2(i - 1);
  }

  lemma QuadruplingConserves(cable: bool, i: int)
    requires 0 <= i < 3
    ensures SizesInRange(Quadrupling(cable, i)) && Conserves(Quadrupling(cable, i))
  {
    var one := One(SizeItem(cable, i));
    UnitsOfCons(one, []);
    UnitsOfCons(one, [one]);
    UnitsOfCons(one, [one, one]);
    UnitsOfCons(one, [one, one, one]);
    assert [one] + [one] == [one, one];
    assert [one] + [one, one] == [one, one, one];
    assert [one] + [one, one, one] == [one, one, one, one];
    assert Pow2(i + 2) == 4 * Pow2(i);
  }

  /** 2^i wires of `startTier` pack, with circuit 2^i, into one wire `i` sizes up. */
  function Pack(startTier: int, i: nat): Recipe {
    Recipe(Packer, [ItemStack(Wire(startTier), Pow2(i))], Some(Pow2(i)), None, One(Wire(startTier + i)))
  }

  /** One wire of size `i` unpacks, with circuit 1, into 2^i single wires. */
  function Unpack(i: nat): Recipe {
    Recipe(Unpacker, [One(Wire(i))], Some(1), None, ItemStack(Wire(0), Pow2(i)))
  }

  /** The packer recipes of the inner loop, for `i` from `i0` up to 4 - startTier. */
  function PacksFrom(startTier: nat, i0: nat): (rs: seq<Recipe>)
    requires 1 <= i0
    ensures forall r | r in rs :: exists i: nat :: i0 <= i < 5 - startTier && r == Pack(startTier, i)
    ensures forall i: nat | i0 <= i < 5 - startTier :: Pack(startTier, i) in rs
    decreases 5 - i0
  {
    if i0 >= 5 - startTier then [] else [Pack(startTier, i0)] + PacksFrom(startTier, i0 + 1)
  }

  /** The packer recipes of the outer loop, for startTier from `s0` up to 3. */
  function PacksFromTier(s0: nat): (rs: seq<Recipe>)
    ensures forall r | r in rs :: exists s: nat, i: nat :: s0 <= s < 4 && 1 <= i < 5 - s && r == Pack(s, i)
    ensures forall s: nat, i: nat | s0 <= s < 4 && 1 <= i < 5 - s :: Pack(s, i) in rs
    decreases 4 - s0
  {
    if s0 >= 4 then [] else PacksFrom(s0, 1) + PacksFromTier(s0 + 1)
  }

  /** The unpacker recipes, for sizes `i0` up to 4. */
  function UnpacksFrom(i0: nat): (rs: seq<Recipe>)
    ensures forall r | r in rs :: exists i: nat :: i0 <= i < 5 && r == Unpack(i)
    ensures forall i: nat | i0 <= i < 5 :: Unpack(i) in rs
    decreases 5 - i0
  {
    if i0 >= 5 then [] else [Unpack(i0)] + UnpacksFrom(i0 + 1)
  }

  ghost predicate IsPack(r: Recipe) {
    exists s: nat, i: nat :: s < 4 && 1 <= i < 5 - s && r == Pack(s, i)
  }

  ghost predicate IsUnpack(r: Recipe) {
    exists i: nat :: 1 <= i < 5 && r == Unpack(i)
  }

  /**
   * processWireCompression: for a conducting material, every packing of 2^i wires of a
   * size into one wire i sizes up (never past hex), and every unpacking of a larger wire
   * into single wires; nothing otherwise.
   */
  function CompressionRecipes(m: Material): seq<Recipe> {
    if m.cableVoltage.None? then [] else PacksFromTier(0) + UnpacksFrom(1)
  }

  /** Every packing and every unpacking is registered for a conducting material. */
  lemma CompressionComplete(m: Material)
    requires m.cableVoltage.Some?
    ensures forall s: nat, i: nat | s < 4 && 1 <= i < 5 - s :: Pack(s, i) in CompressionRecipes(m)
    ensures forall i: nat | 1 <= i < 5 :: Unpack(i) in CompressionRecipes(m)
  {
    var packs, unpacks := PacksFromTier(0), UnpacksFrom(1);
    assert CompressionRecipes(m) == packs + unpacks;
    forall s: nat, i: nat | s < 4 && 1 <= i < 5 - s
      ensures Pack(s, i) in packs + unpacks
    {
      assert Pack(s, i) in packs;
    }
    forall i: nat | 1 <= i < 5
      ensures Unpack(i) in packs + unpacks
    {
      assert Unpack(i) in unpacks;
    }
  }

  /** Nothing but packings and unpackings is registered, and nothing at all for a material without cable properties. */
  lemma CompressionSound(m: Material)
    ensures m.cableVoltage.None? ==> CompressionRecipes(m) == []
    ensures forall r | r in CompressionRecipes(m) :: IsPack(r) || IsUnpack(r)
  {
    if m.cableVoltage.Some? {
      var packs, unpacks := PacksFromTier(0), UnpacksFrom(1);
      PacksArePacks();
      UnpacksAreUnpacks();
      forall r | r in packs + unpacks
        ensures IsPack(r) || IsUnpack(r)
      {
        if r !in packs {
          assert r in unpacks;
        }
      }
    }
  }

  lemma PacksArePacks()
    ensures forall r | r in PacksFromTier(0) :: IsPack(r)
  {
    forall r | r in PacksFromTier(0)
      ensures IsPack(r)
    {
      var s: nat, i: nat :| 0 <= s < 4 && 1 <= i < 5 - s && r == Pack(s, i);
    }
  }

  lemma UnpacksAreUnpacks()
    ensures forall r | r in UnpacksFrom(1) :: IsUnpack(r)
  {
    forall r | r in UnpacksFrom(1)
      ensures IsUnpack(r)
    {
      var i: nat :| 1 <= i < 5 && r == Unpack(i);
    }
  }

  /** Packing and unpacking stay within the five sizes and conserve metal. */
  lemma CompressionConserves(m: Material)
    ensures forall r | r in CompressionRecipes(m) :: SizesInRange(r) && Conserves(r)
  {
    CompressionSound(m);
    forall r | r in CompressionRecipes(m)
      ensures SizesInRange(r) && Conserves(r)
    {
      if IsPack(r) {
        var s: nat, i: nat :| s < 4 && 1 <= i < 5 - s && r == Pack(s, i);
        PackConserves(s, i);
      } else {
        var i: nat :| 1 <= i < 5 && r == Unpack(i);
        UnpackConserves(i);
      }
    }
  }

  lemma PackConserves(s: nat, i: nat)
    requires s < 4 && 1 <= i < 5 - s
    ensures SizesInRange(Pack(s, i)) && Conserves(Pack(s, i))
  {
    Pow2Add(s, i);
    UnitsOfCons(ItemStack(Wire(s), Pow2(i)), []);
  }

  lemma UnpackConserves(i: nat)
    requires 1 <= i < 5
    ensures SizesInRange(Unpack(i)) && Conserves(Unpack(i))
  {
    UnitsOfCons(One(Wire(i)), []);
  }

  lemma {:induction false} Pow2Add(a: nat, b: nat)
    ensures Pow2(a) * Pow2(b) == Pow2(a + b)
  {
    if b > 0 {
      Pow2Add(a, b - 1);
      assert Pow2(a) * Pow2(b) == 2 * (Pow2(a) * Pow2(b - 1));
    }
  }

  /** generateManualRecipe's ingredient array: the wire followed by INSULATION_AMOUNT rubber plates. */
  function ManualIngredients(size: int): (ingredients: seq<ItemStack>)
    requires IsSize(size)
    ensures |ingredients| == InsulationAmount(size) + 1
    ensures ingredients[0] == One(Wire(size))
    ensures forall k | 1 <= k < |ingredients| :: ingredients[k] == One(RubberPlate)
  {
    [One(Wire(size))] + seq(InsulationAmount(size), _ => One(RubberPlate))
  }

  /**
   * generateManualRecipe: a shapeless crafting recipe from the wire and its rubber plates,
   * and a packer recipe from the wire and a stack of the same number of plates.
   */
  function ManualRecipes(size: int): (rs: seq<Recipe>)
    requires IsSize(size)
    ensures |rs| == 2
    ensures forall r | r in rs :: r.output == One(Cable(size)) && Conserves(r)
    ensures rs[0].machine == Crafting && rs[0].inputs == ManualIngredients(size)
    ensures rs[1].machine == Packer
    ensures rs[1].inputs == [One(Wire(size)), ItemStack(RubberPlate, |rs[0].inputs| - 1)]
    ensures forall r | r in rs :: r.circuit.None? && r.fluid.None?
  {
    var ingredients := ManualIngredients(size);
    var plates := ItemStack(RubberPlate, InsulationAmount(size));
    assert UnitsOf(ingredients) == Pow2(size) by {
      RubberAddsNothing(ingredients[1..]);
      UnitsOfCons(ingredients[0], ingredients[1..]);
      assert ingredients == [ingredients[0]] + ingredients[1..];
    }
    assert UnitsOf([One(Wire(size)), plates]) == Pow2(size) by {
      UnitsOfCons(plates, []);
      UnitsOfCons(One(Wire(size)), [plates]);
      assert [One(Wire(size))] + [plates] == [One(Wire(size)), plates];
    }
    [Recipe(Crafting, ingredients, None, None, One(Cable(size))),
     Recipe(Packer, [One(Wire(size)), ItemStack(RubberPlate, InsulationAmount(size))], None, None, One(Cable(size)))]
  }

  lemma {:induction false} RubberAddsNothing(stacks: seq<ItemStack>)
    requires forall k | 0 <= k < |stacks| :: stacks[k].item == RubberPlate
    ensures UnitsOf(stacks) == 0
  {
    if stacks != [] {
      RubberAddsNothing(stacks[1..]);
    }
  }

  /** The assembler recipe insulating `cableAmount` single wires at once, with circuit 24 + size. */
  function FromSingles(size: int, cableAmount: int, fluid: FluidStack): Recipe {
    Recipe(Assembler, [ItemStack(Wire(0), cableAmount)], Some(24 + size), Some(fluid), One(Cable(size)))
  }

  /** The assembler recipe insulating one wire of the size itself, with circuit 24. */
  function FromWire(size: int, fluid: FluidStack): Recipe {
    Recipe(Assembler, [One(Wire(size))], Some(24), Some(fluid), One(Cable(size)))
  }

  /** The fluid stack an insulation recipe takes: getMaterialAmount times cableAmount of the insulation's fluid. */
  function InsulationFluid(insulation: Insulation, cableTier: int, cableAmount: int): FluidStack {
    FluidStack(insulation.fluid, GetMaterialAmount(cableTier, insulation.tier) * cableAmount)
  }

  /** `r` is one of the two assembler recipes the insulation loop registers for `fluid`. */
  predicate InsulatesWith(r: Recipe, size: int, cableAmount: int, fluid: FluidStack) {
    r == FromWire(size, fluid) || (size != 0 && r == FromSingles(size, cableAmount, fluid))
  }

  /**
   * The insulation loop of generateWireRecipe: for every insulation that can cover this
   * cable tier, an assembler recipe from the wire and, unless the wire is single, one
   * from single wires; both take getMaterialAmount times cableAmount of the fluid. An
   * insulation whose amount is -1 yields nothing.
   */
  function InsulationRecipes(insulations: seq<Insulation>, size: int, cableTier: int, cableAmount: int): (rs: seq<Recipe>)
    requires IsSize(size)
    ensures forall r | r in rs ::
      exists k | 0 <= k < |insulations| && cableTier <= insulations[k].tier ::
        InsulatesWith(r, size, cableAmount, InsulationFluid(insulations[k], cableTier, cableAmount))
  {
    if insulations == [] then []
    else
      var rest := InsulationRecipes(insulations[1..], size, cableTier, cableAmount);
      var materialAmount := GetMaterialAmount(cableTier, insulations[0].tier);
      if materialAmount == -1 then rest
      else
        var fluid := InsulationFluid(insulations[0], cableTier, cableAmount);
        (if size != 0 then [FromSingles(size, cableAmount, fluid)] else []) + [FromWire(size, fluid)] + rest
  }

  /**
   * generateWireRecipe for a wire of size `size` that makes `cableAmount` cables: nothing
   * for a non-conducting material; otherwise the manual recipes when the cable is insulated
   * by hand, then the insulation recipes.
   */
  function GenerateWireRecipe(m: Material, size: int, cableAmount: int, tierByVoltage: int -> int,
                              insulations: seq<Insulation>): (rs: seq<Recipe>)
    requires IsSize(size)
    ensures m.cableVoltage.None? ==> rs == []
    ensures forall r | r in rs :: r.output == One(Cable(size))
    ensures (exists r | r in rs :: r.machine != Assembler) <==> IsManualInsulatedCable(m, tierByVoltage)
    ensures m.cableVoltage.Some? ==>
      var insulated := InsulationRecipes(insulations, size, tierByVoltage(m.cableVoltage.value), cableAmount);
      && (forall r | r in rs && r.machine == Assembler :: r in insulated)
      && (forall r | r in insulated :: r in rs)
    ensures forall r | r in rs && r.machine != Assembler :: r in ManualRecipes(size)
    ensures IsManualInsulatedCable(m, tierByVoltage) ==> forall r | r in ManualRecipes(size) :: r in rs
  {
    if m.cableVoltage.None? then []
    else
      var cableTier := tierByVoltage(m.cableVoltage.value);
      var manual := if IsManualInsulatedCable(m, tierByVoltage) then ManualRecipes(size) else [];
      var insulated := InsulationRecipes(insulations, size, cableTier, cableAmount);
      assert forall r | r in manual + insulated :: r in manual || r in insulated;
      assert IsManualInsulatedCable(m, tierByVoltage) ==> manual[0] in manual + insulated;
      manual + insulated
  }

  /**
   * The other direction: every insulation able to cover the cable tier yields the recipe from
   * the wire and, unless the wire is single, the one from single wires.
   */
  lemma {:induction false} InsulationRecipesComplete(insulations: seq<Insulation>, size: int, cableTier: int, cableAmount: int)
    requires IsSize(size)
    ensures forall k | 0 <= k < |insulations| && cableTier <= insulations[k].tier ::
      var fluid := InsulationFluid(insulations[k], cableTier, cableAmount);
      && FromWire(size, fluid) in InsulationRecipes(insulations, size, cableTier, cableAmount)
      && (size != 0 ==> FromSingles(size, cableAmount, fluid) in InsulationRecipes(insulations, size, cableTier, cableAmount))
  {
    if insulations != [] {
      InsulationRecipesComplete(insulations[1..], size, cableTier, cableAmount);
      forall k | 1 <= k < |insulations| && cableTier <= insulations[k].tier
        ensures FromWire(size, InsulationFluid(insulations[k], cableTier, cableAmount))
          in InsulationRecipes(insulations[1..], size, cableTier, cableAmount)
        ensures size != 0 ==>
          FromSingles(size, cableAmount, InsulationFluid(insulations[k], cableTier, cableAmount))
            in InsulationRecipes(insulations[1..], size, cableTier, cableAmount)
      {
        assert insulations[k] == insulations[1..][k - 1];
      }
    }
  }
}
