/** Properties of the dough formulation engine: the override windows, the
    pre-ferment split, the negative-remainder error, the order of the
    ingredient lines, the step substitution and the mass balance. */
module FormulationProofs {
  import opened Wrappers
  import opened Rounding
  import opened Templates
  import opened Styles
  import opened Formulation

  // ---------------------------------------------------------------------
  // Arithmetic facts about percentages of a mass

  lemma PartNonNegative(mass: real, pct: real)
    requires mass >= 0.0 && pct >= 0.0
    ensures Part(mass, pct) >= 0.0
  {
    assert mass * (pct / 100.0) >= 0.0 * (pct / 100.0);
  }

  lemma PartAtMostWhole(mass: real, pct: real)
    requires mass >= 0.0 && pct <= 100.0
    ensures Part(mass, pct) <= mass
  {
    assert mass - Part(mass, pct) == mass * ((100.0 - pct) / 100.0);
    PartNonNegative(mass, 100.0 - pct);
  }

  lemma WholeHasNoDecimals(x: real)
    requires IsWhole(x)
    ensures HasDecimals(x, 0)
  {
    assert Shift(x, 0) == x;
  }

  // ---------------------------------------------------------------------
  // Unknown styles and the hydration override

  /** A key that names no style of the table and no inherited property
      yields no recipe, and no error; an inherited property name yields the
      type error; every key of the table yields a result. */
  lemma UnknownStyle(
    texts: StepTexts, key: string, balls: int, ballSize: real,
    preFermentInput: Option<real>, hydrationInput: Option<real>)
    ensures GetCalculatedRecipe(texts, key, balls, ballSize, preFermentInput, hydrationInput) == Success(None)
        <==> (forall s: Style :: Key(s) != key) && !InheritedKey(key)
    ensures GetCalculatedRecipe(texts, key, balls, ballSize, preFermentInput, hydrationInput) == Failure(NotARecipe)
        <==> InheritedKey(key)
  {
    if Lookup(key).Some? {
      LookupKey(key, Lookup(key).value);
    } else {
      forall s: Style ensures Key(s) != key {
        LookupKey(key, s);
      }
    }
  }

  /** A successful calculation reports as `hydrationUsed` the style's water
      percentage, replaced by the override exactly when the style is one of
      neapolitan, biga or poolish and the override lies in [50, 100]; the
      total water is computed from that same percentage. */
  lemma HydrationUsed(
    texts: StepTexts, key: string, balls: int, ballSize: real,
    preFermentInput: Option<real>, hydrationInput: Option<real>)
    requires GetCalculatedRecipe(texts, key, balls, ballSize, preFermentInput, hydrationInput).Success?
    requires GetCalculatedRecipe(texts, key, balls, ballSize, preFermentInput, hydrationInput).value.Some?
    ensures
      var rec := GetCalculatedRecipe(texts, key, balls, ballSize, preFermentInput, hydrationInput).value.value;
      var style := Lookup(key).value;
      var t := TotalsFor(key, style, balls, ballSize, hydrationInput);
      && rec.hydrationUsed
           == (if (key == "neapolitan" || key == "biga" || key == "poolish")
                  && hydrationInput.Some? && 50.0 <= hydrationInput.value <= 100.0
               then hydrationInput.value
               else Definition(style).percentages.water)
      && t.water == Round(Part(t.flour, rec.hydrationUsed), 0)
  {
  }

  /** An override that is out of [50, 100], or given for a style that does
      not take one, changes nothing in the result. */
  lemma HydrationOverrideIgnored(
    texts: StepTexts, key: string, balls: int, ballSize: real,
    preFermentInput: Option<real>, hydration: real)
    requires !HydrationAdjustable(key) || hydration < 50.0 || hydration > 100.0
    ensures GetCalculatedRecipe(texts, key, balls, ballSize, preFermentInput, Some(hydration))
         == GetCalculatedRecipe(texts, key, balls, ballSize, preFermentInput, None)
  {
    if Lookup(key).Some? {
      var style := Lookup(key).value;
      assert PercentagesFor(key, style, Some(hydration)) == PercentagesFor(key, style, None);
    }
  }

  // ---------------------------------------------------------------------
  // The pre-ferment override

  /** For a pre-ferment style the share used is the override when it lies
      in [10, 80] and the style's default otherwise; it is reported in
      `preFermentPercentageUsed` and sizes the pre-ferment flour. */
  lemma PreFermentShareUsed(
    texts: StepTexts, key: string, balls: int, ballSize: real,
    preFermentInput: Option<real>, hydrationInput: Option<real>)
    requires Lookup(key).Some? && Definition(Lookup(key).value).preFermentation.Some?
    requires GetCalculatedRecipe(texts, key, balls, ballSize, preFermentInput, hydrationInput).Success?
    ensures
      var rec := GetCalculatedRecipe(texts, key, balls, ballSize, preFermentInput, hydrationInput).value.value;
      var style := Lookup(key).value;
      var share := if preFermentInput.Some? && 10.0 <= preFermentInput.value <= 80.0
                   then preFermentInput.value
                   else Definition(style).preFermentation.value.flourPercentage;
      && rec.preFermentPercentageUsed == Some(share)
      && rec.preFermentIngredients.value[0].quantity
           == Grams(Round(Part(TotalsFor(key, style, balls, ballSize, hydrationInput).flour, share), 0))
  {
  }

  /** The pre-ferment list of a successful calculation: the share used of
      the total flour, named after the pre-ferment type and the flour; water
      for that printed flour at the pre-ferment's own hydration; and the
      pre-ferment's percentage of the total yeast, formatted as yeast. */
  lemma PreFermentList(
    texts: StepTexts, key: string, balls: int, ballSize: real,
    preFermentInput: Option<real>, hydrationInput: Option<real>)
    requires Lookup(key).Some? && Definition(Lookup(key).value).preFermentation.Some?
    requires GetCalculatedRecipe(texts, key, balls, ballSize, preFermentInput, hydrationInput).Success?
    ensures
      var rec := GetCalculatedRecipe(texts, key, balls, ballSize, preFermentInput, hydrationInput).value.value;
      var def := Definition(Lookup(key).value);
      var pf := def.preFermentation.value;
      var t := TotalsFor(key, Lookup(key).value, balls, ballSize, hydrationInput);
      var pre := rec.preFermentIngredients.value;
      && |pre| == 3
      && pre[0] == Ingredient(Flour, TypeName(pf.kind) + " " + def.flourType,
                              Grams(Round(Part(t.flour, rec.preFermentPercentageUsed.value), 0)))
      && pre[1] == Ingredient(Water, FixedName(Water), Grams(Round(Part(pre[0].quantity.grams, pf.hydration), 0)))
      && pre[2] == Ingredient(Yeast, FixedName(Yeast), FormatYeast(Round(Part(t.yeast, pf.yeastPercentage), 2)))
  {
  }

  /** A pre-ferment override outside [10, 80] changes nothing in the result. */
  lemma PreFermentOverrideIgnored(
    texts: StepTexts, key: string, balls: int, ballSize: real,
    share: real, hydrationInput: Option<real>)
    requires share < 10.0 || share > 80.0
    ensures GetCalculatedRecipe(texts, key, balls, ballSize, Some(share), hydrationInput)
         == GetCalculatedRecipe(texts, key, balls, ballSize, None, hydrationInput)
  {
    if Lookup(key).Some? && Definition(Lookup(key).value).preFermentation.Some? {
      var style := Lookup(key).value;
      assert SplitFor(key, style, balls, ballSize, Some(share), hydrationInput)
          == SplitFor(key, style, balls, ballSize, None, hydrationInput);
    }
  }

  /** A style without a pre-ferment always yields a recipe whose pre-ferment
      fields are all absent, whatever pre-ferment override is passed. */
  lemma NoPreFermentFields(
    texts: StepTexts, key: string, balls: int, ballSize: real,
    preFermentInput: Option<real>, hydrationInput: Option<real>)
    requires Lookup(key).Some? && Definition(Lookup(key).value).preFermentation.None?
    ensures
      var r := GetCalculatedRecipe(texts, key, balls, ballSize, preFermentInput, hydrationInput);
      && r.Success? && r.value.Some?
      && r.value.value.preFermentIngredients.None?
      && r.value.value.preFermentPercentageUsed.None?
      && r.value.value.preFermentationSteps.None?
      && r == GetCalculatedRecipe(texts, key, balls, ballSize, None, hydrationInput)
  {
  }

  // ---------------------------------------------------------------------
  // The split

  /** The pre-ferment and the final mix together hold exactly the total
      flour and the total water, as printed in the two ingredient lists,
      and exactly the total yeast. */
  lemma SplitSumsToTotals(
    texts: StepTexts, key: string, balls: int, ballSize: real,
    preFermentInput: Option<real>, hydrationInput: Option<real>)
    requires Lookup(key).Some? && Definition(Lookup(key).value).preFermentation.Some?
    requires GetCalculatedRecipe(texts, key, balls, ballSize, preFermentInput, hydrationInput).Success?
    ensures
      var rec := GetCalculatedRecipe(texts, key, balls, ballSize, preFermentInput, hydrationInput).value.value;
      var style := Lookup(key).value;
      var t := TotalsFor(key, style, balls, ballSize, hydrationInput);
      var s := SplitFor(key, style, balls, ballSize, preFermentInput, hydrationInput);
      var pre := rec.preFermentIngredients.value;
      && pre[0].component == Flour && rec.ingredients[1].component == Flour
      && pre[1].component == Water && rec.ingredients[2].component == Water
      && pre[0].quantity.grams + rec.ingredients[1].quantity.grams == t.flour
      && pre[1].quantity.grams + rec.ingredients[2].quantity.grams == t.water
      && s.pfYeast + s.finalYeast == t.yeast
  {
  }

  /** The pre-ferment's flour and water depend on the total flour and the
      pre-ferment's own hydration only, never on the dough's water. */
  lemma PreFermentWaterOwnHydration(t1: Totals, t2: Totals, pf: PreFermentation, share: real)
    requires t1.flour == t2.flour
    ensures SplitPreFerment(t1, pf, share).pfFlour == SplitPreFerment(t2, pf, share).pfFlour
    ensures SplitPreFerment(t1, pf, share).pfWater == SplitPreFerment(t2, pf, share).pfWater
    ensures SplitPreFerment(t1, pf, share).pfWater
         == Round(Part(SplitPreFerment(t1, pf, share).pfFlour, pf.hydration), 0)
  {
  }

  // ---------------------------------------------------------------------
  // The negative remainder

  /** With a non-negative whole total flour and a share of at most 100 %,
      the final flour is never negative. */
  lemma FinalFlourNonNegative(t: Totals, pf: PreFermentation, share: real)
    requires t.flour >= 0.0 && IsWhole(t.flour)
    requires 0.0 <= share <= 100.0
    ensures SplitPreFerment(t, pf, share).finalFlour >= 0.0
  {
    PartAtMostWhole(t.flour, share);
    RoundMonotone(Part(t.flour, share), t.flour, 0);
    WholeHasNoDecimals(t.flour);
    RoundKeepsDecimals(t.flour, 0);
  }

  /** The total flour of a dough of non-negative weight is non-negative. */
  lemma TotalFlourNonNegative(p: BakersPercentages, weight: real)
    requires PercentageSum(p) > 0.0 && weight >= 0.0
    ensures ComputeTotals(p, weight).flour >= 0.0
  {
    assert FlourOf(weight, PercentageSum(p)) >= 0.0;
    RoundNonNegative(FlourOf(weight, PercentageSum(p)), 0);
  }

  /** For a pre-ferment style and a dough of non-negative weight, the
      calculation fails exactly when the pre-ferment needs more water than
      the whole dough holds: the flour remainder cannot go negative. */
  lemma FailsExactlyOnWaterShortfall(
    texts: StepTexts, key: string, balls: int, ballSize: real,
    preFermentInput: Option<real>, hydrationInput: Option<real>)
    requires Lookup(key).Some? && Definition(Lookup(key).value).preFermentation.Some?
    requires balls as real * ballSize >= 0.0
    ensures
      var style := Lookup(key).value;
      var s := SplitFor(key, style, balls, ballSize, preFermentInput, hydrationInput);
      && s.finalFlour >= 0.0
      && (GetCalculatedRecipe(texts, key, balls, ballSize, preFermentInput, hydrationInput).Failure?
          <==> s.finalWater < 0.0)
  {
    var style := Lookup(key).value;
    var def := Definition(style);
    var pf := def.preFermentation.value;
    DefinitionsWellFormed(style);
    var p := PercentagesFor(key, style, hydrationInput);
    TotalFlourNonNegative(p, balls as real * ballSize);
    var t := TotalsFor(key, style, balls, ballSize, hydrationInput);
    FinalFlourNonNegative(t, pf, PreFermentShare(pf, preFermentInput));
  }

  /** Poolish with 80 % of the flour in the pre-ferment and a 50 % dough
      hydration fails: the poolish alone needs more water than the dough. */
  lemma PoolishAtEightyPercentFails(texts: StepTexts)
    ensures GetCalculatedRecipe(texts, "poolish", 1, 1000.0, Some(80.0), Some(50.0))
         == Failure(NegativeRemainder)
  {
    var style := PoolishStyle;
    assert Lookup("poolish") == Some(style);
    var p := PercentagesFor("poolish", style, Some(50.0));
    assert PercentageSum(p) == 152.95;
    HalfUnits();
    assert HasDecimals(654.0, 0) by { assert Shift(654.0, 0) == 654.0; }
    RoundIsNearest(FlourOf(1000.0, 152.95), 0, 654.0);
    var t := TotalsFor("poolish", style, 1, 1000.0, Some(50.0));
    assert t.flour == 654.0;
    assert HasDecimals(327.0, 0) by { assert Shift(327.0, 0) == 327.0; }
    RoundIsNearest(Part(654.0, 50.0), 0, 327.0);
    assert t.water == 327.0;
    assert HasDecimals(523.0, 0) by { assert Shift(523.0, 0) == 523.0; }
    RoundIsNearest(Part(654.0, 80.0), 0, 523.0);
    RoundIsNearest(Part(523.0, 100.0), 0, 523.0);
    var s := SplitFor("poolish", style, 1, 1000.0, Some(80.0), Some(50.0));
    assert s.pfWater == 523.0;
    assert s.finalWater < 0.0;
  }

  // ---------------------------------------------------------------------
  // No negative quantity is ever printed

  predicate NonNegative(q: Quantity) {
    match q
    case Grams(g) => g >= 0.0
    case ApproxPreFerment(g) => g >= 0.0
    case TinyPinch => true
  }

  predicate AllNonNegative(xs: seq<Ingredient>) {
    forall i :: 0 <= i < |xs| ==> NonNegative(xs[i].quantity)
  }

  lemma FormatYeastNonNegative(w: real)
    ensures NonNegative(FormatYeast(w))
  {
  }

  /** All totals of a dough of non-negative weight with non-negative
      percentages are non-negative. */
  lemma TotalsNonNegative(p: BakersPercentages, weight: real)
    requires weight >= 0.0
    requires p.water >= 0.0 && p.salt >= 0.0 && p.yeast >= 0.0
    requires p.oil.Some? ==> p.oil.value >= 0.0
    requires p.sugar.Some? ==> p.sugar.value >= 0.0
    ensures PercentageSum(p) > 0.0
    ensures
      var t := ComputeTotals(p, weight);
      t.flour >= 0.0 && t.water >= 0.0 && t.salt >= 0.0 && t.yeast >= 0.0 && t.oil >= 0.0 && t.sugar >= 0.0
  {
    TotalFlourNonNegative(p, weight);
    var t := ComputeTotals(p, weight);
    PartNonNegative(t.flour, p.water);
    PartNonNegative(t.flour, p.salt);
    PartNonNegative(t.flour, p.yeast);
    RoundNonNegative(Part(t.flour, p.water), 0);
    RoundNonNegative(Part(t.flour, p.salt), 1);
    RoundNonNegative(Part(t.flour, p.yeast), 2);
    if Truthy(p.oil) {
      PartNonNegative(t.flour, p.oil.value);
      RoundNonNegative(Part(t.flour, p.oil.value), 0);
    }
    if Truthy(p.sugar) {
      PartNonNegative(t.flour, p.sugar.value);
      RoundNonNegative(Part(t.flour, p.sugar.value), 0);
    }
  }

  lemma DirectNonNegative(key: string, def: RecipeDefinition, t: Totals)
    requires t.flour >= 0.0 && t.water >= 0.0 && t.salt >= 0.0
    ensures AllNonNegative(DirectIngredients(key, def, t))
  {
    FormatYeastNonNegative(t.yeast);
  }

  lemma PreFermentListNonNegative(def: RecipeDefinition, pf: PreFermentation, s: Split)
    requires s.pfFlour >= 0.0 && s.pfWater >= 0.0
    ensures AllNonNegative(PreFermentIngredients(def, pf, s))
  {
    FormatYeastNonNegative(s.pfYeast);
  }

  lemma FinalListNonNegative(def: RecipeDefinition, pf: PreFermentation, s: Split, t: Totals)
    requires s.pfFlour >= 0.0 && s.pfWater >= 0.0 && s.pfYeast >= 0.0
    requires s.finalFlour >= 0.0 && s.finalWater >= 0.0 && t.salt >= 0.0
    ensures AllNonNegative(FinalIngredients(def, pf, s, t))
  {
    RoundNonNegative(s.pfFlour + s.pfWater + s.pfYeast, 0);
    FormatYeastNonNegative(s.finalYeast);
  }

  /** The pre-ferment's own quantities are non-negative when the totals are. */
  lemma PreFermentPartsNonNegative(t: Totals, pf: PreFermentation, share: real)
    requires t.flour >= 0.0 && t.yeast >= 0.0 && share >= 0.0
    requires pf.hydration >= 0.0 && pf.yeastPercentage >= 0.0
    ensures
      var s := SplitPreFerment(t, pf, share);
      s.pfFlour >= 0.0 && s.pfWater >= 0.0 && s.pfYeast >= 0.0
  {
    var s := SplitPreFerment(t, pf, share);
    PartNonNegative(t.flour, share);
    RoundNonNegative(Part(t.flour, share), 0);
    PartNonNegative(s.pfFlour, pf.hydration);
    RoundNonNegative(Part(s.pfFlour, pf.hydration), 0);
    PartNonNegative(t.yeast, pf.yeastPercentage);
    RoundNonNegative(Part(t.yeast, pf.yeastPercentage), 2);
  }

  /** A successful calculation for a dough of non-negative weight prints no
      negative quantity, in either list. */
  lemma NoNegativeQuantities(
    texts: StepTexts, key: string, balls: int, ballSize: real,
    preFermentInput: Option<real>, hydrationInput: Option<real>)
    requires balls as real * ballSize >= 0.0
    requires GetCalculatedRecipe(texts, key, balls, ballSize, preFermentInput, hydrationInput).Success?
    requires GetCalculatedRecipe(texts, key, balls, ballSize, preFermentInput, hydrationInput).value.Some?
    ensures
      var rec := GetCalculatedRecipe(texts, key, balls, ballSize, preFermentInput, hydrationInput).value.value;
      && AllNonNegative(rec.ingredients)
      && (rec.preFermentIngredients.Some? ==> AllNonNegative(rec.preFermentIngredients.value))
  {
    var style := Lookup(key).value;
    var def := Definition(style);
    DefinitionsWellFormed(style);
    var p := PercentagesFor(key, style, hydrationInput);
    TotalsNonNegative(p, balls as real * ballSize);
    var t := TotalsFor(key, style, balls, ballSize, hydrationInput);
    if def.preFermentation.None? {
      DirectNonNegative(key, def, t);
    } else {
      var pf := def.preFermentation.value;
      var share := PreFermentShare(pf, preFermentInput);
      var s := SplitFor(key, style, balls, ballSize, preFermentInput, hydrationInput);
      PreFermentPartsNonNegative(t, pf, share);
      FailsExactlyOnWaterShortfall(texts, key, balls, ballSize, preFermentInput, hydrationInput);
      PreFermentListNonNegative(def, pf, s);
      FinalListNonNegative(def, pf, s, t);
    }
  }

  // ---------------------------------------------------------------------
  // Fermentation steps

  /** Each fermentation step is its style's template with every
      `{numberOfBalls}` token replaced by the decimal numeral of the ball
      count, which reads back as that count; a template without the token
      comes out exactly as stored. The pre-ferment steps are passed through
      untouched. */
  lemma StepsSubstituted(
    texts: StepTexts, key: string, balls: int, ballSize: real,
    preFermentInput: Option<real>, hydrationInput: Option<real>, i: nat)
    requires GetCalculatedRecipe(texts, key, balls, ballSize, preFermentInput, hydrationInput).Success?
    requires GetCalculatedRecipe(texts, key, balls, ballSize, preFermentInput, hydrationInput).value.Some?
    requires i < |texts.templates(Lookup(key).value)|
    ensures
      var rec := GetCalculatedRecipe(texts, key, balls, ballSize, preFermentInput, hydrationInput).value.value;
      var tmpl := texts.templates(Lookup(key).value)[i];
      var count := IntToString(balls);
      && |rec.fermentationSteps| == |texts.templates(Lookup(key).value)|
      && rec.fermentationSteps[i] == Render(tmpl, count)
      && (balls >= 0 ==> (forall k :: 0 <= k < |count| ==> IsDigitChar(count[k])) && DigitsValue(count) == balls)
      && (balls < 0 ==> count[0] == '-' && (forall k :: 1 <= k < |count| ==> IsDigitChar(count[k]))
                        && DigitsValue(count[1..]) == -balls)
      && (Occurrences(tmpl) == 0 ==> rec.fermentationSteps[i] == Source(tmpl))
      && (rec.preFermentationSteps.Some? ==>
            rec.preFermentationSteps.value
              == texts.preFermentSteps(Definition(Lookup(key).value).preFermentation.value.kind))
  {
    var tmpl := texts.templates(Lookup(key).value)[i];
    if Occurrences(tmpl) == 0 {
      RenderWithoutToken(tmpl, IntToString(balls));
    }
  }

  // ---------------------------------------------------------------------
  // Concrete values

  lemma ExactDecimals(x: real, d: nat, n: int)
    requires Shift(x, d) == n as real
    ensures HasDecimals(x, d)
  {
    assert (n as real).Floor == n;
  }

  /** Yeast below 0.01 g is a tiny pinch; below 0.1 g it keeps two
      decimals; from 0.1 g on it keeps one. */
  lemma FormatYeastExamples()
    ensures FormatYeast(0.004) == TinyPinch
    ensures FormatYeast(0.05) == Grams(0.05)
    ensures FormatYeast(0.37) == Grams(0.4)
    ensures FormatYeast(0.46) == Grams(0.5)
  {
    HalfUnits();
    ExactDecimals(0.05, 2, 5);
    RoundIsNearest(0.05, 2, 0.05);
    ExactDecimals(0.4, 1, 4);
    RoundIsNearest(0.37, 1, 0.4);
    ExactDecimals(0.5, 1, 5);
    RoundIsNearest(0.46, 1, 0.5);
  }

  /** Three 250 g Neapolitan balls: 455 g flour, 282 g water, 12.7 g salt
      and 0.46 g yeast, printed as 0.5 g. */
  lemma NeapolitanScenario(texts: StepTexts)
    ensures
      var r := GetCalculatedRecipe(texts, "neapolitan", 3, 250.0, None, None);
      && r.Success? && r.value.Some?
      && r.value.value.ingredients == [
           Ingredient(Flour, "\"00\" Flour", Grams(455.0)),
           Ingredient(Water, FixedName(Water), Grams(282.0)),
           Ingredient(Salt, FixedName(Salt), Grams(12.7)),
           Ingredient(Yeast, FixedName(Yeast), Grams(0.5))]
      && r.value.value.hydrationUsed == 62.0
  {
    var style := NeapolitanStyle;
    assert Lookup("neapolitan") == Some(style);
    var p := PercentagesFor("neapolitan", style, None);
    assert PercentageSum(p) == 164.9;
    HalfUnits();
    ExactDecimals(455.0, 0, 455);
    RoundIsNearest(FlourOf(750.0, 164.9), 0, 455.0);
    ExactDecimals(282.0, 0, 282);
    RoundIsNearest(Part(455.0, 62.0), 0, 282.0);
    ExactDecimals(12.7, 1, 127);
    RoundIsNearest(Part(455.0, 2.8), 1, 12.7);
    ExactDecimals(0.46, 2, 46);
    RoundIsNearest(Part(455.0, 0.1), 2, 0.46);
    var t := TotalsFor("neapolitan", style, 3, 250.0, None);
    assert t == Totals(455.0, 282.0, 12.7, 0.46, 0.0, 0.0);
    FormatYeastExamples();
  }

  /** Four 250 g biga balls: of 584 g flour and 397 g water, the biga takes
      234 g flour, 105 g water and 0.29 g of the 1.17 g yeast; the final mix
      adds 350 g flour, 292 g water and 0.88 g yeast. */
  lemma BigaScenario(texts: StepTexts)
    ensures
      var style := BigaStyle;
      var t := TotalsFor("biga", style, 4, 250.0, None);
      var s := SplitFor("biga", style, 4, 250.0, None, None);
      && t.flour == 584.0 && t.water == 397.0 && t.salt == 17.5 && t.yeast == 1.17
      && s == Split(234.0, 105.0, 0.29, 350.0, 292.0, 0.88)
      && GetCalculatedRecipe(texts, "biga", 4, 250.0, None, None).Success?
  {
    var style := BigaStyle;
    assert Lookup("biga") == Some(style);
    var p := PercentagesFor("biga", style, None);
    assert PercentageSum(p) == 171.2;
    HalfUnits();
    ExactDecimals(584.0, 0, 584);
    RoundIsNearest(FlourOf(1000.0, 171.2), 0, 584.0);
    ExactDecimals(397.0, 0, 397);
    RoundIsNearest(Part(584.0, 68.0), 0, 397.0);
    ExactDecimals(17.5, 1, 175);
    RoundIsNearest(Part(584.0, 3.0), 1, 17.5);
    ExactDecimals(1.17, 2, 117);
    RoundIsNearest(Part(584.0, 0.2), 2, 1.17);
    var t := TotalsFor("biga", style, 4, 250.0, None);
    assert t == Totals(584.0, 397.0, 17.5, 1.17, 0.0, 0.0);
    ExactDecimals(234.0, 0, 234);
    RoundIsNearest(Part(584.0, 40.0), 0, 234.0);
    ExactDecimals(105.0, 0, 105);
    RoundIsNearest(Part(234.0, 45.0), 0, 105.0);
    ExactDecimals(0.29, 2, 29);
    RoundIsNearest(Part(1.17, 25.0), 2, 0.29);
  }

  // ---------------------------------------------------------------------
  // Mass balance

  /** The sum of all totals of a dough. */
  function TotalMass(t: Totals): real {
    t.flour + t.water + t.salt + t.yeast + t.oil + t.sugar
  }

  /** The percentages of a flour mass add up as the percentages do. */
  lemma PartsAddUp(f: real, p: BakersPercentages)
    ensures Part(f, PercentageSum(p))
         == f + Part(f, p.water) + Part(f, p.salt) + Part(f, p.yeast)
              + Part(f, OrZero(p.oil)) + Part(f, OrZero(p.sugar))
  {
    assert PercentageSum(p) / 100.0
        == 1.0 + p.water / 100.0 + p.salt / 100.0 + p.yeast / 100.0
             + OrZero(p.oil) / 100.0 + OrZero(p.sugar) / 100.0;
  }

  /** The unrounded flour is exactly the share of the weight that makes the
      percentages add up to the weight. */
  lemma FlourOfInverse(weight: real, sum: real)
    requires sum > 0.0
    ensures Part(FlourOf(weight, sum), sum) == weight
  {
  }

  /** Rounding the flour by at most half a gram moves the whole dough by at
      most half a gram per 100 % of the percentage sum. */
  lemma FlourErrorScaled(f: real, g: real, sum: real)
    requires sum > 0.0
    requires g - 0.5 < f <= g + 0.5
    ensures -sum / 200.0 < Part(f, sum) - Part(g, sum) <= sum / 200.0
  {
    assert Part(f, sum) - Part(g, sum) == Part(f - g, sum);
    PartNonNegative(sum, 0.5 - (f - g));
    PartPositive(sum, f - g + 0.5);
    assert Part(sum, 0.5 - (f - g)) == sum / 200.0 - Part(f - g, sum);
    assert Part(sum, f - g + 0.5) == Part(f - g, sum) + sum / 200.0;
  }

  lemma PartPositive(mass: real, pct: real)
    requires mass > 0.0 && pct > 0.0
    ensures Part(mass, pct) > 0.0
  {
    assert mass * (pct / 100.0) > 0.0 * (pct / 100.0);
  }

  /** The rounded totals add up to the dough weight, up to the rounding
      errors: half a gram of flour scaled by the percentage sum, plus half a
      gram each of water, oil and sugar, 0.05 g of salt and 0.005 g of
      yeast. */
  lemma MassBalance(p: BakersPercentages, weight: real)
    requires PercentageSum(p) > 0.0
    ensures
      var bound := PercentageSum(p) / 200.0 + 1.555;
      weight - bound <= TotalMass(ComputeTotals(p, weight)) <= weight + bound
  {
    var sum := PercentageSum(p);
    var t := ComputeTotals(p, weight);
    PartsAddUp(t.flour, p);
    FlourOfInverse(weight, sum);
    FlourErrorScaled(t.flour, FlourOf(weight, sum), sum);
    assert -0.5 <= t.oil - Part(t.flour, OrZero(p.oil)) <= 0.5;
    assert -0.5 <= t.sugar - Part(t.flour, OrZero(p.sugar)) <= 0.5;
  }

  /** For every style of the table, with or without a hydration override,
      the rounded totals stay within 3 g (half a gram per ingredient line)
      of the dough weight. */
  lemma TableMassBalance(
    key: string, style: Style, balls: int, ballSize: real, hydrationInput: Option<real>)
    ensures
      var weight := balls as real * ballSize;
      weight - 3.0 <= TotalMass(TotalsFor(key, style, balls, ballSize, hydrationInput)) <= weight + 3.0
  {
    var p := PercentagesFor(key, style, hydrationInput);
    assert p.water <= 100.0;
    assert PercentageSum(p) <= 100.0 + 100.0 + 3.0 + 1.5 + 5.0 + 3.0;
    MassBalance(p, balls as real * ballSize);
  }
}
