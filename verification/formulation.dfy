/** The dough formulation engine: from a style key, a ball count and a ball
    weight (plus optional pre-ferment and hydration overrides) to the
    ingredient lists and steps of a recipe. */
module Formulation {
  import opened Wrappers
  import opened Rounding
  import opened Templates
  import opened Styles

  // ---------------------------------------------------------------------
  // Output data

  /** A quantity as the recipe shows it: a weight in grams, the approximate
      weight of the whole matured pre-ferment, or "a tiny pinch". */
  datatype Quantity = Grams(grams: real) | ApproxPreFerment(grams: real) | TinyPinch

  /** What an ingredient line is about; the printed name is kept alongside. */
  datatype Component = MaturePreFerment | Flour | Water | Yeast | Salt | Oil | Sugar

  datatype Ingredient = Ingredient(component: Component, name: string, quantity: Quantity)

  datatype DoughRecipe = DoughRecipe(
    doughType: string,
    ingredients: seq<Ingredient>,                  // the final mix
    preFermentIngredients: Option<seq<Ingredient>>,
    preFermentPercentageUsed: Option<real>,
    hydrationUsed: real,
    preFermentationSteps: Option<seq<string>>,
    fermentationSteps: seq<string>)

  /** What the engine throws:
      - NegativeRemainder: the pre-ferment takes more flour or water than
        the whole dough holds (the engine's own `Error`);
      - NotARecipe: the key names an inherited property rather than a
        recipe, whose missing `fermentationSteps` cannot be mapped (a
        `TypeError`). */
  datatype CalcError = NegativeRemainder | NotARecipe

  // ---------------------------------------------------------------------
  // Constants of the engine

  const TinyPinchBelow: real := 0.01
  const TwoDecimalsBelow: real := 0.1
  const NegligibleYeast: real := 0.001
  const MinHydration: real := 50.0
  const MaxHydration: real := 100.0
  const MinPreFermentShare: real := 10.0
  const MaxPreFermentShare: real := 80.0

  // ---------------------------------------------------------------------
  // Arithmetic helpers; each product or quotient is one term

  /** pct % of a mass: `mass * (pct / 100)`. */
  function Part(mass: real, pct: real): real {
    mass * (pct / 100.0)
  }

  /** The flour mass of a dough of the given weight whose percentages add
      up to sum: `weight / (sum / 100)`. */
  function FlourOf(weight: real, sum: real): real
    requires sum > 0.0
  {
    weight / (sum / 100.0)
  }

  /** `x ?? 0` on an optional percentage. */
  function OrZero(p: Option<real>): real {
    if p.Some? then p.value else 0.0
  }

  /** JavaScript truthiness of an optional number (NaN is not modelled). */
  predicate Truthy(p: Option<real>) {
    p.Some? && p.value != 0.0
  }

  lemma HalfUnits()
    ensures HalfUnit(0) == 0.5 && HalfUnit(1) == 0.05 && HalfUnit(2) == 0.005
  {
    assert Pow10(1) == 10.0;
    assert Pow10(2) == 100.0;
  }

  // ---------------------------------------------------------------------
  // formatYeast

  /** `formatYeast`: below 0.01 g a tiny pinch, below 0.1 g two decimals,
      otherwise one decimal. */
  function FormatYeast(w: real): (q: Quantity)
    ensures q == TinyPinch <==> w < TinyPinchBelow
    ensures TinyPinchBelow <= w < TwoDecimalsBelow ==>
      q.Grams? && HasDecimals(q.grams, 2) && w - 0.005 < q.grams <= w + 0.005 && q.grams >= 0.01
    ensures TwoDecimalsBelow <= w ==>
      q.Grams? && HasDecimals(q.grams, 1) && w - 0.05 < q.grams <= w + 0.05 && q.grams >= 0.1
  {
    HalfUnits();
    if w < TinyPinchBelow then TinyPinch
    else if w < TwoDecimalsBelow then
      RoundMonotone(0.01, w, 2);
      assert Shift(0.01, 2) == 1.0 by { assert Pow10(2) == 100.0; }
      RoundKeepsDecimals(0.01, 2);
      Grams(Round(w, 2))
    else
      RoundMonotone(0.1, w, 1);
      assert Shift(0.1, 1) == 1.0 by { assert Pow10(1) == 10.0; }
      RoundKeepsDecimals(0.1, 1);
      Grams(Round(w, 1))
  }

  // ---------------------------------------------------------------------
  // Resolving the overrides

  /** Only these three styles let the caller choose the dough hydration. */
  predicate HydrationAdjustable(key: string) {
    key == "neapolitan" || key == "biga" || key == "poolish"
  }

  /** The hydration override is honoured: the style allows it and the value
      lies in [50, 100]. */
  predicate HydrationOverrideApplies(key: string, input: Option<real>) {
    HydrationAdjustable(key) && input.Some? && MinHydration <= input.value <= MaxHydration
  }

  /** The style's percentages with the water replaced by a valid hydration
      override. */
  function EffectivePercentages(key: string, p: BakersPercentages, input: Option<real>): (e: BakersPercentages)
    ensures e == p.(water := e.water)
    ensures HydrationOverrideApplies(key, input) ==> e.water == input.value
    ensures !HydrationOverrideApplies(key, input) ==> e.water == p.water
  {
    if HydrationOverrideApplies(key, input) then p.(water := input.value) else p
  }

  /** The pre-ferment flour override is honoured when it lies in [10, 80]. */
  predicate ShareOverrideApplies(input: Option<real>) {
    input.Some? && MinPreFermentShare <= input.value <= MaxPreFermentShare
  }

  /** The share of the total flour that goes into the pre-ferment. */
  function PreFermentShare(pf: PreFermentation, input: Option<real>): (share: real)
    ensures ShareOverrideApplies(input) ==> share == input.value
    ensures !ShareOverrideApplies(input) ==> share == pf.flourPercentage
  {
    if ShareOverrideApplies(input) then input.value else pf.flourPercentage
  }

  // ---------------------------------------------------------------------
  // Totals

  /** 100 for the flour plus every other baker's percentage. */
  function PercentageSum(p: BakersPercentages): real {
    100.0 + p.water + p.salt + p.yeast + OrZero(p.oil) + OrZero(p.sugar)
  }

  datatype Totals = Totals(flour: real, water: real, salt: real, yeast: real, oil: real, sugar: real)

  /** Total flour from the dough weight, then every other ingredient from
      that flour, each rounded to its own number of decimals; oil and sugar
      are 0 when their percentage is absent or zero. */
  function ComputeTotals(p: BakersPercentages, weight: real): (t: Totals)
    requires PercentageSum(p) > 0.0
    ensures IsWhole(t.flour) && IsWhole(t.water) && IsWhole(t.oil) && IsWhole(t.sugar)
    ensures HasDecimals(t.salt, 1) && HasDecimals(t.yeast, 2)
    ensures FlourOf(weight, PercentageSum(p)) - 0.5 < t.flour <= FlourOf(weight, PercentageSum(p)) + 0.5
    ensures Part(t.flour, p.water) - 0.5 < t.water <= Part(t.flour, p.water) + 0.5
    ensures Part(t.flour, p.salt) - 0.05 < t.salt <= Part(t.flour, p.salt) + 0.05
    ensures Part(t.flour, p.yeast) - 0.005 < t.yeast <= Part(t.flour, p.yeast) + 0.005
    ensures !Truthy(p.oil) ==> t.oil == 0.0
    ensures Truthy(p.oil) ==> Part(t.flour, p.oil.value) - 0.5 < t.oil <= Part(t.flour, p.oil.value) + 0.5
    ensures !Truthy(p.sugar) ==> t.sugar == 0.0
    ensures Truthy(p.sugar) ==> Part(t.flour, p.sugar.value) - 0.5 < t.sugar <= Part(t.flour, p.sugar.value) + 0.5
  {
    HalfUnits();
    var flour := Round(FlourOf(weight, PercentageSum(p)), 0);
    RoundToWhole(FlourOf(weight, PercentageSum(p)));
    RoundToWhole(Part(flour, p.water));
    RoundToWhole(Part(flour, OrZero(p.oil)));
    RoundToWhole(Part(flour, OrZero(p.sugar)));
    assert IsWhole(0.0);
    Totals(
      flour,
      Round(Part(flour, p.water), 0),
      Round(Part(flour, p.salt), 1),
      Round(Part(flour, p.yeast), 2),
      if Truthy(p.oil) then Round(Part(flour, p.oil.value), 0) else 0.0,
      if Truthy(p.sugar) then Round(Part(flour, p.sugar.value), 0) else 0.0)
  }

  // ---------------------------------------------------------------------
  // The pre-ferment split

  datatype Split = Split(
    pfFlour: real, pfWater: real, pfYeast: real,
    finalFlour: real, finalWater: real, finalYeast: real)

  /** The pre-ferment takes share % of the flour, water at its own
      hydration and its percentage of the yeast; the final mix keeps the
      rest of each. */
  function SplitPreFerment(t: Totals, pf: PreFermentation, share: real): (s: Split)
    ensures s.pfFlour + s.finalFlour == t.flour
    ensures s.pfWater + s.finalWater == t.water
    ensures s.pfYeast + s.finalYeast == t.yeast
    ensures IsWhole(s.pfFlour) && IsWhole(s.pfWater) && HasDecimals(s.pfYeast, 2)
    ensures Part(t.flour, share) - 0.5 < s.pfFlour <= Part(t.flour, share) + 0.5
    ensures Part(s.pfFlour, pf.hydration) - 0.5 < s.pfWater <= Part(s.pfFlour, pf.hydration) + 0.5
    ensures Part(t.yeast, pf.yeastPercentage) - 0.005 < s.pfYeast <= Part(t.yeast, pf.yeastPercentage) + 0.005
  {
    HalfUnits();
    var pfFlour := Round(Part(t.flour, share), 0);
    var pfWater := Round(Part(pfFlour, pf.hydration), 0);
    var pfYeast := Round(Part(t.yeast, pf.yeastPercentage), 2);
    RoundToWhole(Part(t.flour, share));
    RoundToWhole(Part(pfFlour, pf.hydration));
    Split(pfFlour, pfWater, pfYeast, t.flour - pfFlour, t.water - pfWater, t.yeast - pfYeast)
  }

  // ---------------------------------------------------------------------
  // Ingredient lists

  /** The printed name of a line whose name is the same for every style;
      the flour and matured pre-ferment lines are named per style. */
  function FixedName(c: Component): string
    requires c != Flour && c != MaturePreFerment
  {
    match c
    case Water => "Water"
    case Salt => "Salt"
    case Yeast => "Instant Dry Yeast"
    case Oil => "Oil"
    case Sugar => "Sugar"
  }

  /** Focaccia calls its oil "Olive Oil". */
  function OilName(key: string): string {
    if key == "focaccia" then "Olive Oil" else FixedName(Oil)
  }

  /** The line of the matured pre-ferment: "Mature Biga", "Mature Poolish". */
  function MatureName(k: PreFermentType): string {
    "Mature " + TypeName(k)
  }

  /** The final mix of a style without a pre-ferment. */
  function DirectIngredients(key: string, def: RecipeDefinition, t: Totals): seq<Ingredient> {
    [ Ingredient(Flour, def.flourType, Grams(t.flour)),
      Ingredient(Water, FixedName(Water), Grams(t.water)),
      Ingredient(Salt, FixedName(Salt), Grams(t.salt)),
      Ingredient(Yeast, FixedName(Yeast), FormatYeast(t.yeast)) ]
    + (if t.oil > 0.0 then [Ingredient(Oil, OilName(key), Grams(t.oil))] else [])
    + (if t.sugar > 0.0 then [Ingredient(Sugar, FixedName(Sugar), Grams(t.sugar))] else [])
  }

  /** What goes into the pre-ferment itself. */
  function PreFermentIngredients(def: RecipeDefinition, pf: PreFermentation, s: Split): seq<Ingredient> {
    [ Ingredient(Flour, TypeName(pf.kind) + " " + def.flourType, Grams(s.pfFlour)),
      Ingredient(Water, FixedName(Water), Grams(s.pfWater)),
      Ingredient(Yeast, FixedName(Yeast), FormatYeast(s.pfYeast)) ]
  }

  /** The final mix of a pre-ferment style: the matured pre-ferment first,
      then the remainders, salt, and oil and sugar when present. */
  function FinalIngredients(def: RecipeDefinition, pf: PreFermentation, s: Split, t: Totals): seq<Ingredient> {
    [ Ingredient(MaturePreFerment, MatureName(pf.kind),
                 ApproxPreFerment(Round(s.pfFlour + s.pfWater + s.pfYeast, 0))),
      Ingredient(Flour, def.flourType, Grams(s.finalFlour)),
      Ingredient(Water, FixedName(Water), Grams(s.finalWater)) ]
    + (if s.finalYeast > NegligibleYeast then [Ingredient(Yeast, FixedName(Yeast), FormatYeast(s.finalYeast))] else [])
    + [Ingredient(Salt, FixedName(Salt), Grams(t.salt))]
    + (if t.oil > 0.0 then [Ingredient(Oil, FixedName(Oil), Grams(t.oil))] else [])
    + (if t.sugar > 0.0 then [Ingredient(Sugar, FixedName(Sugar), Grams(t.sugar))] else [])
  }

  /** `fermentationSteps.map(step => step.replace(...))`. */
  function RenderSteps(ts: seq<Template>, count: string): (r: seq<string>)
    ensures |r| == |ts|
    ensures forall i :: 0 <= i < |ts| ==> r[i] == Render(ts[i], count)
  {
    if ts == [] then [] else [Render(ts[0], count)] + RenderSteps(ts[1..], count)
  }

  // ---------------------------------------------------------------------
  // getCalculatedRecipe

  /** The percentages the calculation uses for a style. */
  function PercentagesFor(key: string, style: Style, hydrationInput: Option<real>): (p: BakersPercentages)
    ensures PercentageSum(p) >= 100.0
  {
    DefinitionsWellFormed(style);
    EffectivePercentages(key, Definition(style).percentages, hydrationInput)
  }

  /** The totals the calculation derives for a style. */
  function TotalsFor(key: string, style: Style, balls: int, ballSize: real, hydrationInput: Option<real>): Totals {
    ComputeTotals(PercentagesFor(key, style, hydrationInput), balls as real * ballSize)
  }

  /** The pre-ferment split the calculation derives for a pre-ferment style. */
  function SplitFor(
    key: string, style: Style, balls: int, ballSize: real,
    preFermentInput: Option<real>, hydrationInput: Option<real>): Split
    requires Definition(style).preFermentation.Some?
  {
    var pf := Definition(style).preFermentation.value;
    SplitPreFerment(TotalsFor(key, style, balls, ballSize, hydrationInput), pf, PreFermentShare(pf, preFermentInput))
  }

  /** `getCalculatedRecipe`: Success(None) for an unknown key (the source
      returns null), a Failure where the source throws. For an inherited
      key the source computes NaN totals without complaint and only fails
      when it maps the missing step list, so nothing is returned but the
      error. The repository's texts are `RepositoryTexts()`. */
  function GetCalculatedRecipe(
    texts: StepTexts, key: string, balls: int, ballSize: real,
    preFermentInput: Option<real>, hydrationInput: Option<real>): (r: Result<Option<DoughRecipe>, CalcError>)
    ensures r == Success(None) <==> Lookup(key).None? && !InheritedKey(key)
    ensures r == Failure(NotARecipe) <==> InheritedKey(key)
    ensures r == Failure(NegativeRemainder) ==>
      Lookup(key).Some? && Definition(Lookup(key).value).preFermentation.Some?
    ensures r.Success? && r.value.Some? ==>
      var rec := r.value.value;
      && rec.doughType == Definition(Lookup(key).value).name
      && rec.hydrationUsed == PercentagesFor(key, Lookup(key).value, hydrationInput).water
      && (rec.preFermentIngredients.Some? <==> Definition(Lookup(key).value).preFermentation.Some?)
      && (rec.preFermentPercentageUsed.Some? <==> Definition(Lookup(key).value).preFermentation.Some?)
      && (rec.preFermentationSteps.Some? <==> Definition(Lookup(key).value).preFermentation.Some?)
  {
    match Lookup(key)
    case None =>
      if InheritedKey(key) then Failure(NotARecipe) else Success(None)
    case Some(style) =>
      var def := Definition(style);
      var p := PercentagesFor(key, style, hydrationInput);
      var t := TotalsFor(key, style, balls, ballSize, hydrationInput);
      var steps := RenderSteps(texts.templates(style), IntToString(balls));
      match def.preFermentation
      case None =>
        Success(Some(DoughRecipe(def.name, DirectIngredients(key, def, t), None, None, p.water, None, steps)))
      case Some(pf) =>
        var share := PreFermentShare(pf, preFermentInput);
        var s := SplitFor(key, style, balls, ballSize, preFermentInput, hydrationInput);
        if s.finalFlour < 0.0 || s.finalWater < 0.0 then
          Failure(NegativeRemainder)
        else
          Success(Some(DoughRecipe(
            def.name,
            FinalIngredients(def, pf, s, t),
            Some(PreFermentIngredients(def, pf, s)),
            Some(share),
            p.water,
            Some(texts.preFermentSteps(pf.kind)),
            steps)))
  }
}
