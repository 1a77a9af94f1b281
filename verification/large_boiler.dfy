/**
 * The integer state of the large boiler multiblock (MetaTileEntityLargeBoilerNew): the
 * throttle, the fuel timer and temperature, the remainder carries that keep water and solid
 * fuel from being lost to integer division, the reset when the structure breaks, and the
 * saved state. Inventories, the world and the floating-point duration formulas are inputs.
 */
module LargeBoiler {
  import opened Wrappers

  const BOILING_TEMPERATURE: int := 100
  /** Burn ticks per unit of solid fuel; the remainder below it is carried in excessFuel. */
  const SOLID_FUEL_UNIT: int := 80
  /** A solid-fuel temperature increase above this switches to super-heating. */
  const SUPER_HEAT_THRESHOLD: int := 5000
  const SUPER_HEAT_INCREASE: int := 20
  const MIN_THROTTLE: int := 20
  const MAX_THROTTLE: int := 100

  function Max(a: int, b: int): int { if a >= b then a else b }
  function Min(a: int, b: int): int { if a <= b then a else b }

  /** Java `/` on int by a positive divisor: the quotient truncated towards zero. */
  function JavaDiv(a: int, b: int): (q: int)
    requires b > 0
    ensures a >= 0 ==> q == a / b
    ensures a < 0 ==> q == -((-a) / b)
  {
    if a >= 0 then a / b else -((-a) / b)
  }

  /** Java `%` on int by a positive divisor: the remainder takes the sign of `a`. */
  function JavaRem(a: int, b: int): (r: int)
    requires b > 0
    ensures a == b * JavaDiv(a, b) + r
    ensures a >= 0 ==> 0 <= r < b && r == a % b
    ensures a < 0 ==> -b < r <= 0
  {
    a - b * JavaDiv(a, b)
  }

  /** MathHelper.clamp. */
  function Clamp(v: int, lo: int, hi: int): (r: int)
    requires lo <= hi
    ensures lo <= r <= hi
    ensures lo <= v <= hi ==> r == v
    ensures v < lo ==> r == lo
    ensures v > hi ==> r == hi
  {
    if v < lo then lo else if v > hi then hi else v
  }

  /** The LargeBoilerType values the integer state depends on. */
  datatype BoilerType = BoilerType(eut: int, boilerTemperatureIncrease: int, maxTemperature: int)

  /** The integer and boolean fields of the boiler. */
  datatype Boiler = Boiler(
    currentTemperature: int,
    fuelBurnTicksLeft: int,
    throttlePercentage: int,
    isActive: bool,
    wasActiveAndNeedsUpdate: bool,
    hasNoWater: bool,
    lastTickSteamOutput: int,
    eutGenerated: int,
    temperatureIncrease: int,
    superTemperatureIncrease: int,
    excessWater: int,
    excessFuel: int)

  /** The field initialisers: full throttle and one EU/t generated, everything else zero. */
  const INITIAL: Boiler := Boiler(0, 0, 100, false, false, false, 0, 1, 0, 0, 0, 0)

  // ---------------------------------------------------------------- throttle

  /**
   * handleDisplayClick: "add" raises the throttle, anything else lowers it, by 1 with shift
   * and 5 without, and the result is clamped to 20 .. 100 percent.
   */
  function ClickedThrottle(throttle: int, componentData: string, isShiftClick: bool): (r: int)
    ensures MIN_THROTTLE <= r <= MAX_THROTTLE
  {
    var modifier := if componentData == "add" then 1 else -1;
    var result := (if isShiftClick then 1 else 5) * modifier;
    Clamp(throttle + result, MIN_THROTTLE, MAX_THROTTLE)
  }

  /**
   * From a throttle in range, a click moves it by exactly its step (1 with shift, 5 without),
   * up for "add" and down otherwise, unless that would cross a bound, where it stops.
   */
  lemma ClickMovesByStep(throttle: int, componentData: string, isShiftClick: bool)
    requires MIN_THROTTLE <= throttle <= MAX_THROTTLE
    ensures var r := ClickedThrottle(throttle, componentData, isShiftClick);
      var step := if isShiftClick then 1 else 5;
      && (componentData == "add" && throttle + step <= MAX_THROTTLE ==> r == throttle + step)
      && (componentData == "add" && throttle + step > MAX_THROTTLE ==> r == MAX_THROTTLE)
      && (componentData != "add" && throttle - step >= MIN_THROTTLE ==> r == throttle - step)
      && (componentData != "add" && throttle - step < MIN_THROTTLE ==> r == MIN_THROTTLE)
    ensures var r := ClickedThrottle(throttle, componentData, isShiftClick);
      var step := if isShiftClick then 1 else 5;
      && (componentData == "add" ==> throttle <= r <= throttle + step)
      && (componentData != "add" ==> throttle - step <= r <= throttle)
      && (r == throttle <==>
            (componentData == "add" && throttle == MAX_THROTTLE) || (componentData != "add" && throttle == MIN_THROTTLE))
  {
  }

  /** A click and the opposite click with the same modifier cancel while the range is not hit. */
  lemma ClickUndone(throttle: int, isShiftClick: bool)
    requires var step := if isShiftClick then 1 else 5;
      MIN_THROTTLE <= throttle && throttle + step <= MAX_THROTTLE
    ensures ClickedThrottle(ClickedThrottle(throttle, "add", isShiftClick), "sub", isShiftClick) == throttle
  {
  }

  // ---------------------------------------------------------------- structure

  /** The multiblock abilities checkStructureComponents looks at. */
  datatype Ability = ImportFluids | ImportItems | ExportFluids | OtherAbility

  /**
   * checkStructureComponents, over the number of parts found per ability: at least one fluid
   * input hatch, a second one or an item input bus, and a fluid output hatch.
   */
  predicate CheckStructureComponents(abilities: map<Ability, nat>)
  {
    var importFluidsSize := if ImportFluids in abilities then abilities[ImportFluids] else 0;
    && importFluidsSize >= 1
    && (importFluidsSize >= 2 || ImportItems in abilities)
    && ExportFluids in abilities
  }

  /** The two accepted layouts, and nothing without a fluid input and a fluid output. */
  lemma StructureComponentsCases(abilities: map<Ability, nat>)
    ensures CheckStructureComponents(abilities) ==> ImportFluids in abilities && ExportFluids in abilities
    ensures ImportFluids in abilities && abilities[ImportFluids] >= 2 && ExportFluids in abilities
      ==> CheckStructureComponents(abilities)
    ensures ImportFluids in abilities && abilities[ImportFluids] == 1 && ExportFluids in abilities
      ==> (CheckStructureComponents(abilities) <==> ImportItems in abilities)
  {
  }

  /** Adding parts never breaks an accepted structure. */
  lemma StructureComponentsMonotone(abilities: map<Ability, nat>, more: map<Ability, nat>)
    requires forall a | a in abilities :: a in more && more[a] >= abilities[a]
    ensures CheckStructureComponents(abilities) ==> CheckStructureComponents(more)
  {
  }

  /** invalidateStructure leaves the boiler cold, idle, unfuelled, at full throttle and with no carries. */
  predicate AtRest(b: Boiler) {
    && b.currentTemperature == 0
    && b.fuelBurnTicksLeft == 0
    && !b.hasNoWater
    && !b.isActive
    && b.throttlePercentage == MAX_THROTTLE
    && b.eutGenerated == 0
    && b.temperatureIncrease == 0
    && b.superTemperatureIncrease == 0
    && b.excessWater == 0
    && b.excessFuel == 0
  }

  // ---------------------------------------------------------------- carries

  /** The water one tick drains and the steam remainder carried to the next tick. */
  datatype WaterDraw = WaterDraw(amount: int, excessWater: int)

  /** The water usage of updateFormedValid for `gen` units of steam. */
  function WaterCarry(gen: int, excessWater: int, steamPerWater: int): WaterDraw
    requires gen > 0 && steamPerWater > 0
  {
    var amount := JavaDiv(gen + steamPerWater, steamPerWater);
    var excess := excessWater + amount * steamPerWater - gen;
    WaterDraw(amount - JavaDiv(excess, steamPerWater), JavaRem(excess, steamPerWater))
  }

  lemma MulSubDistributes(a: int, b: int, s: int)
    ensures (a - b) * s == a * s - b * s
  {
  }

  lemma MulAboveNegative(a: int, s: int)
    requires s > 0 && a * s > -s
    ensures a >= 0
  {
    if a < 0 {
      var k := -(a + 1);
      assert k * s >= 0;
      MulSubDistributes(-1, k, s);
    }
  }

  /**
   * No water is lost to rounding: the water requested, in steam units, is the steam produced
   * plus the growth of the carry; and a carry that starts in 0 .. S-1 stays there, with a
   * drain that is never negative.
   */
  lemma WaterCarryConserves(gen: int, excessWater: int, steamPerWater: int)
    requires gen > 0 && steamPerWater > 0
    ensures var w := WaterCarry(gen, excessWater, steamPerWater);
      w.amount * steamPerWater == gen + w.excessWater - excessWater
    ensures var w := WaterCarry(gen, excessWater, steamPerWater);
      0 <= excessWater < steamPerWater ==> 0 <= w.excessWater < steamPerWater && w.amount >= 0
  {
    var s := steamPerWater;
    var amount := JavaDiv(gen + s, s);
    var rem := JavaRem(gen + s, s);
    assert gen + s == s * amount + rem && 0 <= rem < s;
    var excess := excessWater + amount * s - gen;
    var q := JavaDiv(excess, s);
    var e := JavaRem(excess, s);
    assert excess == s * q + e;
    var w := WaterCarry(gen, excessWater, s);
    assert w == WaterDraw(amount - q, e);
    MulSubDistributes(amount, q, s);
    assert w.amount * s == gen + e - excessWater;
    if 0 <= excessWater < s {
      assert excess > 0;
      MulAboveNegative(w.amount, s);
    }
  }

  /** The solid-fuel remainder carry: the burn time and the remainder left for the next item. */
  datatype FuelCarry = FuelCarry(duration: int, excessFuel: int)

  /**
   * `excessFuel += burn % 80; burn += excessFuel / 80; excessFuel %= 80`, as written in both
   * setupRecipeAndConsumeInputs and getFuels.
   */
  function SolidCarry(burnTime: int, excessFuel: int): FuelCarry
  {
    var excess := excessFuel + JavaRem(burnTime, SOLID_FUEL_UNIT);
    FuelCarry(burnTime + JavaDiv(excess, SOLID_FUEL_UNIT), JavaRem(excess, SOLID_FUEL_UNIT))
  }

  /**
   * Whenever the remainders of the items burnt so far add up to a full unit, the next
   * item burns one tick longer; a carry in 0 .. 79 stays there.
   */
  lemma SolidCarryBounds(burnTime: int, excessFuel: int)
    requires burnTime >= 0 && 0 <= excessFuel < SOLID_FUEL_UNIT
    ensures var f := SolidCarry(burnTime, excessFuel);
      && 0 <= f.excessFuel < SOLID_FUEL_UNIT
      && (f.duration == burnTime || f.duration == burnTime + 1)
      && SOLID_FUEL_UNIT * (f.duration - burnTime) + f.excessFuel == excessFuel + burnTime % SOLID_FUEL_UNIT
  {
  }

  // ---------------------------------------------------------------- fuel

  /**
   * What the inventory scan of setupRecipeAndConsumeInputs found: the first tank holding at
   * least 1000 mB of a combustion or semi-fluid fuel, with the duration the floating-point
   * formula gives it, else the first slot whose item burns for at least 80 ticks, with the
   * floating-point scaling of its burn time, else nothing.
   */
  datatype FuelOffer =
    | DieselFuel(duration: int)
    | SemiFluidFuel(duration: int)
    | SolidFuel(burnTime: int, scale: int -> int)
    | NoFuel

  /** What the source guarantees of an offer: `Math.max(1, ...)` durations and a burn time of at least 80. */
  predicate ValidOffer(offer: FuelOffer) {
    match offer
    case DieselFuel(d) => d >= 1
    case SemiFluidFuel(d) => d >= 1
    case SolidFuel(burnTime, _) => JavaDiv(burnTime, SOLID_FUEL_UNIT) > 0
    case NoFuel => true
  }

  datatype Setup = Setup(boiler: Boiler, duration: int)

  /** setupRecipeAndConsumeInputs once the scan has chosen: the new fuel's duration and its effect on the state. */
  function SetupRecipe(b: Boiler, t: BoilerType, offer: FuelOffer): Setup
    requires ValidOffer(offer)
  {
    match offer
    case DieselFuel(d) =>
      Setup(b.(eutGenerated := t.eut,
               temperatureIncrease := JavaDiv(JavaDiv(d, 20) * t.boilerTemperatureIncrease * 4, 1000)), d)
    case SemiFluidFuel(d) =>
      Setup(b.(eutGenerated := t.eut,
               temperatureIncrease := JavaDiv(d * t.boilerTemperatureIncrease * 4, 100)), d)
    case SolidFuel(burnTime, scale) =>
      var carry := SolidCarry(burnTime, b.excessFuel);
      var duration := scale(carry.duration);
      var increase := duration * t.boilerTemperatureIncrease;
      var b1 := b.(excessFuel := carry.excessFuel);
      var b2 :=
        if increase > SUPER_HEAT_THRESHOLD then
          b1.(temperatureIncrease := 0, superTemperatureIncrease := SUPER_HEAT_INCREASE)
        else
          b1.(temperatureIncrease := increase);
      Setup(b2.(eutGenerated := t.eut), duration)
    case NoFuel =>
      Setup(b.(eutGenerated := 0), 0)
  }

  /**
   * A solid fuel whose temperature increase would exceed 5000 switches to super-heating: the
   * increase becomes 0 and the super increase 20; a smaller increase is kept and leaves the
   * super increase as it was. Either way the kept increase is at most 5000.
   */
  lemma SuperHeatSwitch(b: Boiler, t: BoilerType, burnTime: int, scale: int -> int)
    requires ValidOffer(SolidFuel(burnTime, scale))
    ensures var s := SetupRecipe(b, t, SolidFuel(burnTime, scale));
      var increase := s.duration * t.boilerTemperatureIncrease;
      && s.boiler.temperatureIncrease <= SUPER_HEAT_THRESHOLD
      && (increase > SUPER_HEAT_THRESHOLD ==>
            s.boiler.temperatureIncrease == 0 && s.boiler.superTemperatureIncrease == SUPER_HEAT_INCREASE)
      && (increase <= SUPER_HEAT_THRESHOLD ==>
            s.boiler.temperatureIncrease == increase && s.boiler.superTemperatureIncrease == b.superTemperatureIncrease)
      && s.boiler.eutGenerated == t.eut
      && s.boiler.excessFuel == SolidCarry(burnTime, b.excessFuel).excessFuel
  {
  }

  /** Finding no fuel stops generation and reports no duration; nothing else changes. */
  lemma NoFuelStopsGeneration(b: Boiler, t: BoilerType)
    ensures SetupRecipe(b, t, NoFuel) == Setup(b.(eutGenerated := 0), 0)
  {
  }

  // ---------------------------------------------------------------- tick

  /**
   * The temperature part of updateFormedValid while generating: super-heating, then one tick
   * of fuel (rising at most to the maximum once a second) or, without fuel, cooling by 20
   * once a second.
   */
  function HeatStep(b: Boiler, t: BoilerType, onSecond: bool): Boiler
  {
    var b1 :=
      if b.superTemperatureIncrease > 0 then
        b.(currentTemperature := Max(b.currentTemperature + b.superTemperatureIncrease,
                                     t.maxTemperature - (6 - 6) * 1000))
      else b;
    if b1.fuelBurnTicksLeft > 0 && b1.currentTemperature < t.maxTemperature then
      var b2 := b1.(fuelBurnTicksLeft := b1.fuelBurnTicksLeft - 1,
                    currentTemperature :=
                      if onSecond then Min(b1.currentTemperature + b1.temperatureIncrease, t.maxTemperature)
                      else b1.currentTemperature);
      if b2.fuelBurnTicksLeft == 0 then b2.(wasActiveAndNeedsUpdate := true) else b2
    else if b1.currentTemperature > 0 && onSecond then
      b1.(currentTemperature := b1.currentTemperature - 20)
    else b1
  }

  /** `EUtGenerated * 2 * currentTemperature / maxTemperature`, the steam of one tick. */
  function GeneratedEU(b: Boiler, t: BoilerType): int
    requires t.maxTemperature > 0
  {
    JavaDiv(b.eutGenerated * 2 * b.currentTemperature, t.maxTemperature)
  }

  /**
   * What one tick did besides updating the fields: the water asked of the input tanks, whether
   * that drain is carried out (`drains`) or only simulated, and whether the boiler blew up.
   */
  datatype TickOutcome = TickOutcome(boiler: Boiler, waterRequest: Option<int>, drains: bool, explodes: bool)

  /**
   * The water part of updateFormedValid: when steam is generated, the drain request and
   * the carry. The drain is carried out only when `onSecond` (`getOffsetTimer() % 20 == 0`)
   * and merely simulated on the other ticks, while the carry is charged on every tick.
   * If water came out, a hot boiler that had run dry explodes, and steam is output from
   * 100 degrees; if none came out, the boiler records that it has no water.
   */
  function WaterStep(b: Boiler, t: BoilerType, steamPerWater: int, onSecond: bool, waterDrained: bool): TickOutcome
    requires t.maxTemperature > 0 && steamPerWater > 0
  {
    var gen := GeneratedEU(b, t);
    if gen > 0 then
      var w := WaterCarry(gen, b.excessWater, steamPerWater);
      var b1 := b.(excessWater := w.excessWater);
      if waterDrained then
        var b2 := b1.(hasNoWater := false);
        TickOutcome(
          if b2.currentTemperature >= BOILING_TEMPERATURE then b2.(lastTickSteamOutput := gen) else b2,
          Some(w.amount), onSecond,
          b1.currentTemperature > BOILING_TEMPERATURE && b1.hasNoWater)
      else
        TickOutcome(b1.(hasNoWater := true), Some(w.amount), onSecond, false)
    else
      TickOutcome(b, None, false, false)
  }

  /** The refuelling part of updateFormedValid: a boiler out of fuel takes the offered fuel. */
  function RefuelStep(b: Boiler, t: BoilerType, offer: FuelOffer): Boiler
    requires ValidOffer(offer)
  {
    if b.fuelBurnTicksLeft == 0 then
      var s := SetupRecipe(b, t, offer);
      if s.duration > 0 then
        var b1 := s.boiler.(fuelBurnTicksLeft := s.duration);
        if b1.wasActiveAndNeedsUpdate then b1.(wasActiveAndNeedsUpdate := false) else b1.(isActive := true)
      else s.boiler
    else b
  }

  /** The end of updateFormedValid: a pending deactivation is carried out. */
  function SettleActive(b: Boiler): Boiler {
    if b.wasActiveAndNeedsUpdate then b.(wasActiveAndNeedsUpdate := false, isActive := false) else b
  }

  /** updateFormedValid, one server tick of a formed boiler. */
  function Tick(b: Boiler, t: BoilerType, steamPerWater: int, onSecond: bool, waterDrained: bool,
                offer: FuelOffer): TickOutcome
    requires t.maxTemperature > 0 && steamPerWater > 0 && ValidOffer(offer)
  {
    var heated :=
      if b.eutGenerated > 0 then WaterStep(HeatStep(b, t, onSecond), t, steamPerWater, onSecond, waterDrained)
      else TickOutcome(b, None, false, false);
    heated.(boiler := SettleActive(RefuelStep(heated.boiler, t, offer)))
  }

  /**
   * Water leaves the tanks only on the ticks where `getOffsetTimer() % 20 == 0`: on the other
   * nineteen the request is simulated, though the carry was charged for it all the same.
   */
  lemma {:induction false} TickDrainsOnlyOnSecond(b: Boiler, t: BoilerType, steamPerWater: int, onSecond: bool,
                                                  waterDrained: bool, offer: FuelOffer)
    requires t.maxTemperature > 0 && steamPerWater > 0 && ValidOffer(offer)
    ensures var r := Tick(b, t, steamPerWater, onSecond, waterDrained, offer);
      && (r.drains <==> r.waterRequest.Some? && onSecond)
      && (r.waterRequest.Some? ==>
            var h := HeatStep(b, t, onSecond);
            r.boiler.excessWater == WaterCarry(GeneratedEU(h, t), h.excessWater, steamPerWater).excessWater)
  {
  }

  /** The water part changes only the water carry, the no-water flag and the steam output. */
  lemma WaterStepFrame(b: Boiler, t: BoilerType, steamPerWater: int, onSecond: bool, waterDrained: bool)
    requires t.maxTemperature > 0 && steamPerWater > 0
    ensures var r := WaterStep(b, t, steamPerWater, onSecond, waterDrained).boiler;
      r == b.(excessWater := r.excessWater, hasNoWater := r.hasNoWater, lastTickSteamOutput := r.lastTickSteamOutput)
  {
  }

  /** Refuelling leaves the temperature, the water state and the throttle alone. */
  lemma RefuelStepFrame(b: Boiler, t: BoilerType, offer: FuelOffer)
    requires ValidOffer(offer)
    ensures var r := RefuelStep(b, t, offer);
      && r.currentTemperature == b.currentTemperature
      && r.excessWater == b.excessWater
      && r.throttlePercentage == b.throttlePercentage
      && (b.fuelBurnTicksLeft != 0 ==> r == b)
  {
  }

  /** The temperature part, with fuel left below the maximum and no super-heating. */
  lemma HeatStepBurns(b: Boiler, t: BoilerType, onSecond: bool)
    requires b.superTemperatureIncrease == 0 && b.fuelBurnTicksLeft > 0 && b.currentTemperature < t.maxTemperature
    ensures var h := HeatStep(b, t, onSecond);
      && h.fuelBurnTicksLeft == b.fuelBurnTicksLeft - 1
      && h.currentTemperature <= t.maxTemperature
      && (h.wasActiveAndNeedsUpdate <==> b.wasActiveAndNeedsUpdate || h.fuelBurnTicksLeft == 0)
  {
  }

  /** While burning below the maximum, every tick uses exactly one tick of fuel. */
  lemma TickBurnsOneTick(b: Boiler, t: BoilerType, steamPerWater: int, onSecond: bool, waterDrained: bool,
                         offer: FuelOffer)
    requires t.maxTemperature > 0 && steamPerWater > 0 && ValidOffer(offer)
    requires b.eutGenerated > 0 && b.superTemperatureIncrease == 0
    requires b.fuelBurnTicksLeft > 1 && b.currentTemperature < t.maxTemperature
    ensures Tick(b, t, steamPerWater, onSecond, waterDrained, offer).boiler.fuelBurnTicksLeft == b.fuelBurnTicksLeft - 1
  {
    var h := HeatStep(b, t, onSecond);
    HeatStepBurns(b, t, onSecond);
    var w := WaterStep(h, t, steamPerWater, onSecond, waterDrained);
    WaterStepFrame(h, t, steamPerWater, onSecond, waterDrained);
    RefuelStepFrame(w.boiler, t, offer);
  }

  /**
   * When the last tick of fuel burns, the boiler takes the offered fuel in the same tick;
   * it then stays as active as it was if there was fuel to take, and goes inactive if not.
   */
  lemma TickRefuelsWhenBurntOut(b: Boiler, t: BoilerType, steamPerWater: int, onSecond: bool, waterDrained: bool,
                                offer: FuelOffer)
    requires t.maxTemperature > 0 && steamPerWater > 0 && ValidOffer(offer)
    requires b.eutGenerated > 0 && b.superTemperatureIncrease == 0
    requires b.fuelBurnTicksLeft == 1 && b.currentTemperature < t.maxTemperature
    ensures var r := Tick(b, t, steamPerWater, onSecond, waterDrained, offer).boiler;
      var s := SetupRecipe(HeatStep(b, t, onSecond), t, offer);
      && r.fuelBurnTicksLeft == (if s.duration > 0 then s.duration else 0)
      && (r.isActive <==> s.duration > 0 && b.isActive)
      && !r.wasActiveAndNeedsUpdate
  {
    var h := HeatStep(b, t, onSecond);
    HeatStepBurns(b, t, onSecond);
    var w := WaterStep(h, t, steamPerWater, onSecond, waterDrained);
    WaterStepFrame(h, t, steamPerWater, onSecond, waterDrained);
    assert w.boiler.fuelBurnTicksLeft == 0 && w.boiler.wasActiveAndNeedsUpdate && w.boiler.isActive == b.isActive;
    var s1 := SetupRecipe(w.boiler, t, offer);
    var s2 := SetupRecipe(h, t, offer);
    assert s1.duration == s2.duration;
    assert s1.boiler.fuelBurnTicksLeft == 0 && s1.boiler.wasActiveAndNeedsUpdate && s1.boiler.isActive == b.isActive;
    var f := RefuelStep(w.boiler, t, offer);
    if s1.duration > 0 {
      assert f == s1.boiler.(fuelBurnTicksLeft := s1.duration, wasActiveAndNeedsUpdate := false);
    } else {
      assert f == s1.boiler;
    }
  }

  /** Without super-heating, a temperature at or below the maximum stays there. */
  lemma TemperatureCapped(b: Boiler, t: BoilerType, steamPerWater: int, onSecond: bool, waterDrained: bool,
                          offer: FuelOffer)
    requires t.maxTemperature > 0 && steamPerWater > 0 && ValidOffer(offer)
    requires b.superTemperatureIncrease == 0 && b.currentTemperature <= t.maxTemperature
    ensures Tick(b, t, steamPerWater, onSecond, waterDrained, offer).boiler.currentTemperature <= t.maxTemperature
  {
    if b.eutGenerated > 0 {
      var h := HeatStep(b, t, onSecond);
      assert h.currentTemperature <= t.maxTemperature;
      var w := WaterStep(h, t, steamPerWater, onSecond, waterDrained);
      WaterStepFrame(h, t, steamPerWater, onSecond, waterDrained);
      RefuelStepFrame(w.boiler, t, offer);
    } else {
      RefuelStepFrame(b, t, offer);
    }
  }

  /**
   * With super-heating on, `Math.max` lifts the temperature to at least the maximum on every
   * generating tick, so the fuel timer, which only runs below the maximum, never moves; the
   * once-a-second cooling takes back only 20 degrees.
   */
  lemma SuperHeatPinsTemperature(b: Boiler, t: BoilerType, steamPerWater: int, onSecond: bool, waterDrained: bool,
                                 offer: FuelOffer)
    requires t.maxTemperature > 0 && steamPerWater > 0 && ValidOffer(offer)
    requires b.eutGenerated > 0 && b.superTemperatureIncrease > 0 && b.fuelBurnTicksLeft > 0
    ensures var r := Tick(b, t, steamPerWater, onSecond, waterDrained, offer).boiler;
      && r.fuelBurnTicksLeft == b.fuelBurnTicksLeft
      && r.currentTemperature >= t.maxTemperature - 20
      && r.currentTemperature >= b.currentTemperature + b.superTemperatureIncrease - 20
      && (!onSecond ==> r.currentTemperature >= t.maxTemperature
                        && r.currentTemperature >= b.currentTemperature + b.superTemperatureIncrease)
  {
    var h := HeatStep(b, t, onSecond);
    var hot := Max(b.currentTemperature + b.superTemperatureIncrease, t.maxTemperature);
    assert h == b.(currentTemperature := if onSecond then hot - 20 else hot);
    var w := WaterStep(h, t, steamPerWater, onSecond, waterDrained);
    WaterStepFrame(h, t, steamPerWater, onSecond, waterDrained);
    RefuelStepFrame(w.boiler, t, offer);
  }

  /** A reset boiler that finds no fuel stays as it is. */
  lemma RestingBoilerStaysAtRest(b: Boiler, t: BoilerType, steamPerWater: int, onSecond: bool, waterDrained: bool)
    requires t.maxTemperature > 0 && steamPerWater > 0
    requires AtRest(b) && !b.wasActiveAndNeedsUpdate
    ensures Tick(b, t, steamPerWater, onSecond, waterDrained, NoFuel) == TickOutcome(b, None, false, false)
  {
  }

  lemma WaterStepKeepsCarry(b: Boiler, t: BoilerType, steamPerWater: int, onSecond: bool, waterDrained: bool)
    requires t.maxTemperature > 0 && steamPerWater > 0
    requires 0 <= b.excessWater < steamPerWater
    ensures 0 <= WaterStep(b, t, steamPerWater, onSecond, waterDrained).boiler.excessWater < steamPerWater
  {
    var gen := GeneratedEU(b, t);
    if gen > 0 {
      WaterCarryConserves(gen, b.excessWater, steamPerWater);
    }
  }

  lemma RefuelStepKeepsCarry(b: Boiler, t: BoilerType, offer: FuelOffer)
    requires ValidOffer(offer)
    requires 0 <= b.excessFuel < SOLID_FUEL_UNIT
    ensures 0 <= RefuelStep(b, t, offer).excessFuel < SOLID_FUEL_UNIT
  {
    if offer.SolidFuel? {
      SolidCarryBounds(offer.burnTime, b.excessFuel);
    }
  }

  /** Each tick keeps both carries within their divisor when they start there. */
  lemma TickKeepsCarries(b: Boiler, t: BoilerType, steamPerWater: int, onSecond: bool, waterDrained: bool,
                         offer: FuelOffer)
    requires t.maxTemperature > 0 && steamPerWater > 0 && ValidOffer(offer)
    requires 0 <= b.excessWater < steamPerWater && 0 <= b.excessFuel < SOLID_FUEL_UNIT
    ensures var r := Tick(b, t, steamPerWater, onSecond, waterDrained, offer).boiler;
      0 <= r.excessWater < steamPerWater && 0 <= r.excessFuel < SOLID_FUEL_UNIT
  {
    var heated :=
      if b.eutGenerated > 0 then WaterStep(HeatStep(b, t, onSecond), t, steamPerWater, onSecond, waterDrained)
      else TickOutcome(b, None, false, false);
    if b.eutGenerated > 0 {
      var h := HeatStep(b, t, onSecond);
      assert h.excessWater == b.excessWater && h.excessFuel == b.excessFuel;
      WaterStepFrame(h, t, steamPerWater, onSecond, waterDrained);
      WaterStepKeepsCarry(h, t, steamPerWater, onSecond, waterDrained);
    }
    RefuelStepFrame(heated.boiler, t, offer);
    RefuelStepKeepsCarry(heated.boiler, t, offer);
  }

  // ---------------------------------------------------------------- saved state

  /**
   * An NBT tag as the boiler's entries see it: an int tag, a byte tag (what setBoolean
   * writes, 1 or 0), or a tag of another, non-numeric kind.
   */
  datatype NbtValue = NbtInt(i: int) | NbtByte(v: int) | NbtOther

  /**
   * The tag names the boiler saves, and any other name a compound may hold. An `Other` name
   * is taken to differ from the nine: in Java a base-class entry under one of them would be
   * overwritten by writeToNBT, which this model does not capture.
   */
  datatype NbtKey =
    | CurrentTemperature | FuelBurnTicksLeft | HasNoWater | ThrottlePercentage | EUtGenerated
    | TemperatureIncrease | SuperTemperatureIncrease | ExcessWater | ExcessFuel
    | Other(name: string)

  /** An NBT compound tag. */
  type Compound = map<NbtKey, NbtValue>

  /** getInteger: the value of a numeric tag of either width, 0 when the key is missing or not numeric. */
  function GetInteger(data: Compound, key: NbtKey): (n: int)
    ensures key !in data || data[key].NbtOther? ==> n == 0
  {
    if key !in data then 0
    else match data[key]
      case NbtInt(i) => i
      case NbtByte(v) => v
      case NbtOther => 0
  }

  /**
   * getBoolean: getByte(key) != 0, where an int tag is cut to its low eight bits; false
   * when the key is missing or not numeric.
   */
  function GetBoolean(data: Compound, key: NbtKey): (b: bool)
    ensures b ==> key in data && !data[key].NbtOther?
  {
    if key !in data then false
    else match data[key]
      case NbtInt(i) => i % 256 != 0
      case NbtByte(v) => v != 0
      case NbtOther => false
  }

  /** setBoolean: a byte tag holding 1 or 0. */
  function BoolTag(b: bool): NbtValue {
    NbtByte(if b then 1 else 0)
  }

  /** writeToNBT: the nine saved fields, added to what the base class wrote. */
  function Written(data: Compound, b: Boiler): Compound {
    data[CurrentTemperature := NbtInt(b.currentTemperature)]
        [FuelBurnTicksLeft := NbtInt(b.fuelBurnTicksLeft)]
        [HasNoWater := BoolTag(b.hasNoWater)]
        [ThrottlePercentage := NbtInt(b.throttlePercentage)]
        [EUtGenerated := NbtInt(b.eutGenerated)]
        [TemperatureIncrease := NbtInt(b.temperatureIncrease)]
        [SuperTemperatureIncrease := NbtInt(b.superTemperatureIncrease)]
        [ExcessWater := NbtInt(b.excessWater)]
        [ExcessFuel := NbtInt(b.excessFuel)]
  }

  /**
   * readFromNBT: the saved fields are read back (the throttle only when present), and the
   * boiler counts as active exactly when fuel is left.
   */
  function Restored(b: Boiler, data: Compound): Boiler {
    var burn := GetInteger(data, FuelBurnTicksLeft);
    b.(currentTemperature := GetInteger(data, CurrentTemperature),
       fuelBurnTicksLeft := burn,
       hasNoWater := GetBoolean(data, HasNoWater),
       eutGenerated := GetInteger(data, EUtGenerated),
       temperatureIncrease := GetInteger(data, TemperatureIncrease),
       superTemperatureIncrease := GetInteger(data, SuperTemperatureIncrease),
       excessWater := GetInteger(data, ExcessWater),
       excessFuel := GetInteger(data, ExcessFuel),
       throttlePercentage := if ThrottlePercentage in data then GetInteger(data, ThrottlePercentage)
                             else b.throttlePercentage,
       isActive := burn > 0)
  }

  /**
   * Saving and loading gives back every saved field; isActive is recomputed from the fuel
   * left, and the fields that are not saved keep the loading boiler's values.
   */
  lemma NbtRoundTrip(data: Compound, saved: Boiler, loading: Boiler)
    ensures Restored(loading, Written(data, saved))
      == saved.(isActive := saved.fuelBurnTicksLeft > 0,
                wasActiveAndNeedsUpdate := loading.wasActiveAndNeedsUpdate,
                lastTickSteamOutput := loading.lastTickSteamOutput)
  {
  }

  /** Loading a tag without a throttle entry keeps the current throttle. */
  lemma NbtMissingThrottleKept(data: Compound, b: Boiler)
    requires ThrottlePercentage !in data
    ensures Restored(b, data).throttlePercentage == b.throttlePercentage
  {
  }

  // ---------------------------------------------------------------- getFuels

  /** The item part of getFuels over the first `n` slots: the carry and the burn time reported per slot. */
  function FuelsCarry(excessFuel: int, burnTimes: seq<int>, scale: int -> int, n: nat): (r: (int, seq<int>))
    requires n <= |burnTimes|
    ensures |r.1| == n
  {
    if n == 0 then (excessFuel, [])
    else
      var (excess, reported) := FuelsCarry(excessFuel, burnTimes, scale, n - 1);
      var burnTime := burnTimes[n - 1];
      if JavaDiv(burnTime, SOLID_FUEL_UNIT) > 0 then
        var carry := SolidCarry(burnTime, excess);
        (carry.excessFuel, reported + [scale(carry.duration)])
      else
        (excess, reported + [burnTime])
  }

  /** Listing the fuels moves the carry, but keeps it within 0 .. 79. */
  lemma {:induction false} FuelsCarryBounded(excessFuel: int, burnTimes: seq<int>, scale: int -> int, n: nat)
    requires n <= |burnTimes| && 0 <= excessFuel < SOLID_FUEL_UNIT
    requires forall i | 0 <= i < |burnTimes| :: burnTimes[i] >= 0
    ensures 0 <= FuelsCarry(excessFuel, burnTimes, scale, n).0 < SOLID_FUEL_UNIT
  {
    if n > 0 {
      FuelsCarryBounded(excessFuel, burnTimes, scale, n - 1);
      var excess := FuelsCarry(excessFuel, burnTimes, scale, n - 1).0;
      SolidCarryBounds(burnTimes[n - 1], excess);
    }
  }

  /** getFuels is a query, yet a listed item with a remainder changes the carry the next real burn uses. */
  lemma ListingFuelsMovesCarry(scale: int -> int)
    ensures FuelsCarry(0, [100], scale, 1).0 == 20
  {
  }

  // ---------------------------------------------------------------- the tile entity

  class LargeBoilerState {
    const boilerType: BoilerType
    /** GTValues.STEAM_PER_WATER, which is not part of this model. */
    const steamPerWater: int

    var currentTemperature: int
    var fuelBurnTicksLeft: int
    var throttlePercentage: int
    var isActive: bool
    var wasActiveAndNeedsUpdate: bool
    var hasNoWater: bool
    var lastTickSteamOutput: int
    var eutGenerated: int
    var temperatureIncrease: int
    var superTemperatureIncrease: int
    var excessWater: int
    var excessFuel: int

    predicate Configured() {
      boilerType.maxTemperature > 0 && steamPerWater > 0
    }

    function State(): Boiler
      reads this
    {
      Boiler(currentTemperature, fuelBurnTicksLeft, throttlePercentage, isActive, wasActiveAndNeedsUpdate,
             hasNoWater, lastTickSteamOutput, eutGenerated, temperatureIncrease, superTemperatureIncrease,
             excessWater, excessFuel)
    }

    method SetState(b: Boiler)
      modifies this
      ensures State() == b
    {
      currentTemperature := b.currentTemperature;
      fuelBurnTicksLeft := b.fuelBurnTicksLeft;
      throttlePercentage := b.throttlePercentage;
      isActive := b.isActive;
      wasActiveAndNeedsUpdate := b.wasActiveAndNeedsUpdate;
      hasNoWater := b.hasNoWater;
      lastTickSteamOutput := b.lastTickSteamOutput;
      eutGenerated := b.eutGenerated;
      temperatureIncrease := b.temperatureIncrease;
      superTemperatureIncrease := b.superTemperatureIncrease;
      excessWater := b.excessWater;
      excessFuel := b.excessFuel;
    }

    constructor (boilerType: BoilerType, steamPerWater: int)
      ensures this.boilerType == boilerType && this.steamPerWater == steamPerWater
      ensures State() == INITIAL
    {
      this.boilerType := boilerType;
      this.steamPerWater := steamPerWater;
      currentTemperature := 0;
      fuelBurnTicksLeft := 0;
      throttlePercentage := 100;
      isActive := false;
      wasActiveAndNeedsUpdate := false;
      hasNoWater := false;
      lastTickSteamOutput := 0;
      eutGenerated := 1;
      temperatureIncrease := 0;
      superTemperatureIncrease := 0;
      excessWater := 0;
      excessFuel := 0;
    }

    /** handleDisplayClick: only the throttle changes. */
    method HandleDisplayClick(componentData: string, isShiftClick: bool)
      modifies this
      ensures State() == old(State()).(throttlePercentage := ClickedThrottle(old(throttlePercentage), componentData, isShiftClick))
    {
      var modifier := if componentData == "add" then 1 else -1;
      var result := (if isShiftClick then 1 else 5) * modifier;
      throttlePercentage := Clamp(throttlePercentage + result, MIN_THROTTLE, MAX_THROTTLE);
    }

    /** invalidateStructure: back to rest; only the pending-update flag and the last steam output survive. */
    method InvalidateStructure()
      modifies this
      ensures AtRest(State())
      ensures wasActiveAndNeedsUpdate == old(wasActiveAndNeedsUpdate)
      ensures lastTickSteamOutput == old(lastTickSteamOutput)
    {
      currentTemperature := 0;
      fuelBurnTicksLeft := 0;
      hasNoWater := false;
      isActive := false;
      throttlePercentage := 100;
      eutGenerated := 0;
      temperatureIncrease := 0;
      superTemperatureIncrease := 0;
      excessWater := 0;
      excessFuel := 0;
    }

    /** setActive, without its world and network side effects. */
    method SetActive(active: bool)
      modifies this
      ensures State() == old(State()).(isActive := active)
    {
      isActive := active;
    }

    /** setupRecipeAndConsumeInputs once the inventory scan has chosen `offer`. */
    method SetupRecipeAndConsumeInputs(offer: FuelOffer) returns (duration: int)
      requires ValidOffer(offer)
      modifies this
      ensures State() == SetupRecipe(old(State()), boilerType, offer).boiler
      ensures duration == SetupRecipe(old(State()), boilerType, offer).duration
    {
      match offer
      case DieselFuel(d) =>
        eutGenerated := boilerType.eut;
        temperatureIncrease := JavaDiv(JavaDiv(d, 20) * boilerType.boilerTemperatureIncrease * 4, 1000);
        duration := d;
      case SemiFluidFuel(d) =>
        eutGenerated := boilerType.eut;
        temperatureIncrease := JavaDiv(d * boilerType.boilerTemperatureIncrease * 4, 100);
        duration := d;
      case SolidFuel(burnTime, scale) =>
        ghost var carry := SolidCarry(burnTime, excessFuel);
        var solidFuelDuration := burnTime;
        excessFuel := excessFuel + JavaRem(solidFuelDuration, SOLID_FUEL_UNIT);
        solidFuelDuration := solidFuelDuration + JavaDiv(excessFuel, SOLID_FUEL_UNIT);
        excessFuel := JavaRem(excessFuel, SOLID_FUEL_UNIT);
        assert solidFuelDuration == carry.duration && excessFuel == carry.excessFuel;
        solidFuelDuration := scale(solidFuelDuration);
        temperatureIncrease := solidFuelDuration * boilerType.boilerTemperatureIncrease;
        if temperatureIncrease > SUPER_HEAT_THRESHOLD {
          temperatureIncrease := 0;
          superTemperatureIncrease := SUPER_HEAT_INCREASE;
        }
        eutGenerated := boilerType.eut;
        duration := solidFuelDuration;
      case NoFuel =>
        eutGenerated := 0;
        duration := 0;
    }

    /** The temperature part of updateFormedValid. */
    method HeatUp(onSecond: bool)
      modifies this
      ensures State() == HeatStep(old(State()), boilerType, onSecond)
    {
      if superTemperatureIncrease > 0 {
        currentTemperature := Max(currentTemperature + superTemperatureIncrease,
                                  boilerType.maxTemperature - (6 - 6) * 1000);
      }
      if fuelBurnTicksLeft > 0 && currentTemperature < boilerType.maxTemperature {
        fuelBurnTicksLeft := fuelBurnTicksLeft - 1;
        if onSecond {
          currentTemperature := Min(currentTemperature + temperatureIncrease, boilerType.maxTemperature);
        }
        if fuelBurnTicksLeft == 0 {
          wasActiveAndNeedsUpdate := true;
        }
      } else if currentTemperature > 0 && onSecond {
        currentTemperature := currentTemperature - 20;
      }
    }

    /** The water part of updateFormedValid; `drains` is the doWaterDrain flag passed to drain. */
    method UseWater(onSecond: bool, waterDrained: bool) returns (waterRequest: Option<int>, drains: bool, explodes: bool)
      requires Configured()
      modifies this
      ensures var r := WaterStep(old(State()), boilerType, steamPerWater, onSecond, waterDrained);
        && State() == r.boiler && waterRequest == r.waterRequest && drains == r.drains && explodes == r.explodes
      ensures drains <==> waterRequest.Some? && onSecond
    {
      waterRequest := None;
      drains := false;
      explodes := false;
      var generatedEU := JavaDiv(eutGenerated * 2 * currentTemperature, boilerType.maxTemperature);
      if generatedEU > 0 {
        var amount := JavaDiv(generatedEU + steamPerWater, steamPerWater);
        excessWater := excessWater + amount * steamPerWater - generatedEU;
        amount := amount - JavaDiv(excessWater, steamPerWater);
        excessWater := JavaRem(excessWater, steamPerWater);
        waterRequest := Some(amount);
        drains := onSecond;
        if waterDrained {
          if currentTemperature > BOILING_TEMPERATURE && hasNoWater {
            explodes := true;
          }
          hasNoWater := false;
          if currentTemperature >= BOILING_TEMPERATURE {
            lastTickSteamOutput := generatedEU;
          }
        } else {
          hasNoWater := true;
        }
      }
    }

    /** The refuelling part of updateFormedValid. */
    method ConsumeMoreFuel(offer: FuelOffer)
      requires ValidOffer(offer)
      modifies this
      ensures State() == RefuelStep(old(State()), boilerType, offer)
    {
      if fuelBurnTicksLeft == 0 {
        var fuelMaxBurnTime := SetupRecipeAndConsumeInputs(offer);
        if fuelMaxBurnTime > 0 {
          fuelBurnTicksLeft := fuelMaxBurnTime;
          if wasActiveAndNeedsUpdate {
            wasActiveAndNeedsUpdate := false;
          } else {
            SetActive(true);
          }
        }
      }
    }

    /**
     * updateFormedValid. `onSecond` is `getOffsetTimer() % 20 == 0`, `waterDrained` whether the
     * drain returned water, `offer` what the inventory scan would pick; the result is the water
     * the boiler asked of its tanks, whether that drain was carried out rather than simulated,
     * and whether it blew up.
     */
    method UpdateFormedValid(onSecond: bool, waterDrained: bool, offer: FuelOffer)
      returns (waterRequest: Option<int>, drains: bool, explodes: bool)
      requires Configured() && ValidOffer(offer)
      modifies this
      ensures var r := Tick(old(State()), boilerType, steamPerWater, onSecond, waterDrained, offer);
        && State() == r.boiler && waterRequest == r.waterRequest && drains == r.drains && explodes == r.explodes
      ensures drains <==> waterRequest.Some? && onSecond
    {
      waterRequest := None;
      drains := false;
      explodes := false;
      if eutGenerated > 0 {
        HeatUp(onSecond);
        waterRequest, drains, explodes := UseWater(onSecond, waterDrained);
      }
      ConsumeMoreFuel(offer);
      if wasActiveAndNeedsUpdate {
        wasActiveAndNeedsUpdate := false;
        SetActive(false);
      }
    }

    /** writeToNBT. */
    method WriteToNbt(data: Compound) returns (r: Compound)
      ensures r == Written(data, State())
      ensures GetInteger(r, FuelBurnTicksLeft) == fuelBurnTicksLeft
      ensures GetInteger(r, ExcessWater) == excessWater && GetInteger(r, ExcessFuel) == excessFuel
    {
      r := data;
      r := r[CurrentTemperature := NbtInt(currentTemperature)];
      r := r[FuelBurnTicksLeft := NbtInt(fuelBurnTicksLeft)];
      r := r[HasNoWater := BoolTag(hasNoWater)];
      r := r[ThrottlePercentage := NbtInt(throttlePercentage)];
      r := r[EUtGenerated := NbtInt(eutGenerated)];
      r := r[TemperatureIncrease := NbtInt(temperatureIncrease)];
      r := r[SuperTemperatureIncrease := NbtInt(superTemperatureIncrease)];
      r := r[ExcessWater := NbtInt(excessWater)];
      r := r[ExcessFuel := NbtInt(excessFuel)];
    }

    /** readFromNBT. */
    method ReadFromNbt(data: Compound)
      modifies this
      ensures State() == Restored(old(State()), data)
    {
      currentTemperature := GetInteger(data, CurrentTemperature);
      fuelBurnTicksLeft := GetInteger(data, FuelBurnTicksLeft);
      hasNoWater := GetBoolean(data, HasNoWater);
      eutGenerated := GetInteger(data, EUtGenerated);
      temperatureIncrease := GetInteger(data, TemperatureIncrease);
      superTemperatureIncrease := GetInteger(data, SuperTemperatureIncrease);
      excessWater := GetInteger(data, ExcessWater);
      excessFuel := GetInteger(data, ExcessFuel);
      if ThrottlePercentage in data {
        throttlePercentage := GetInteger(data, ThrottlePercentage);
      }
      isActive := fuelBurnTicksLeft > 0;
    }

    /** getLightValueForPart: a part glows at full light exactly while the boiler is active. */
    function GetLightValueForPart(hasSourcePart: bool): (light: int)
      reads this
      ensures light == 0 || light == 15
      ensures light == 15 <==> hasSourcePart && isActive
    {
      if !hasSourcePart then 0 else if isActive then 15 else 0
    }

    /**
     * The item loop of getFuels on a formed boiler: it runs the solid-fuel carry for every
     * listed item and reports each slot's burn time.
     */
    method GetFuelsItemDurations(burnTimes: seq<int>, scale: int -> int) returns (reported: seq<int>)
      modifies this
      ensures (excessFuel, reported) == FuelsCarry(old(excessFuel), burnTimes, scale, |burnTimes|)
      ensures State() == old(State()).(excessFuel := excessFuel)
    {
      reported := [];
      ghost var excess0 := excessFuel;
      for slotIndex := 0 to |burnTimes|
        invariant (excessFuel, reported) == FuelsCarry(excess0, burnTimes, scale, slotIndex)
        invariant State() == old(State()).(excessFuel := excessFuel)
      {
        ghost var carry := SolidCarry(burnTimes[slotIndex], excessFuel);
        var solidFuelDuration := burnTimes[slotIndex];
        if JavaDiv(solidFuelDuration, SOLID_FUEL_UNIT) > 0 {
          excessFuel := excessFuel + JavaRem(solidFuelDuration, SOLID_FUEL_UNIT);
          solidFuelDuration := solidFuelDuration + JavaDiv(excessFuel, SOLID_FUEL_UNIT);
          excessFuel := JavaRem(excessFuel, SOLID_FUEL_UNIT);
          assert solidFuelDuration == carry.duration && excessFuel == carry.excessFuel;
          solidFuelDuration := scale(solidFuelDuration);
        }
        reported := reported + [solidFuelDuration];
      }
    }
  }
}
