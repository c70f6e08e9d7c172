/** The ingredient lists line by line: which lines appear, in which order,
    and what each line says. Together these pin each list down completely. */
module IngredientProofs {
  import opened Wrappers
  import opened Rounding
  import opened Styles
  import opened Formulation

  /** Position of a component in the list of a style without a pre-ferment. */
  function DirectRank(c: Component): nat {
    match c
    case Flour => 0
    case Water => 1
    case Salt => 2
    case Yeast => 3
    case Oil => 4
    case Sugar => 5
    case MaturePreFerment => 6
  }

  /** Position of a component in the final mix of a pre-ferment style. */
  function FinalRank(c: Component): nat {
    match c
    case MaturePreFerment => 0
    case Flour => 1
    case Water => 2
    case Yeast => 3
    case Salt => 4
    case Oil => 5
    case Sugar => 6
  }

  /** Components strictly rising in the order of a list without a pre-ferment. */
  predicate DirectOrdered(xs: seq<Ingredient>) {
    forall i, j :: 0 <= i < j < |xs| ==> DirectRank(xs[i].component) < DirectRank(xs[j].component)
  }

  /** Components strictly rising in the order of a pre-ferment style's final mix. */
  predicate FinalOrdered(xs: seq<Ingredient>) {
    forall i, j :: 0 <= i < j < |xs| ==> FinalRank(xs[i].component) < FinalRank(xs[j].component)
  }

  /** The ranks of a list's lines in the order without a pre-ferment. */
  function DirectRanks(xs: seq<Ingredient>): seq<nat> {
    seq(|xs|, i requires 0 <= i < |xs| => DirectRank(xs[i].component))
  }

  /** The ranks of a list's lines in the order of a pre-ferment style's final mix. */
  function FinalRanks(xs: seq<Ingredient>): seq<nat> {
    seq(|xs|, i requires 0 <= i < |xs| => FinalRank(xs[i].component))
  }

  /** Each rank below the next. */
  predicate StepsUp(rs: seq<nat>) {
    forall i :: 0 < i < |rs| ==> rs[i - 1] < rs[i]
  }

  /** Rising step by step is rising throughout. */
  lemma {:induction false} StepsUpRising(rs: seq<nat>, i: nat, j: nat)
    requires StepsUp(rs)
    requires i < j < |rs|
    ensures rs[i] < rs[j]
    decreases j - i
  {
    if i + 1 < j {
      StepsUpRising(rs, i, j - 1);
    }
  }

  lemma DirectOrderedByRanks(xs: seq<Ingredient>)
    requires StepsUp(DirectRanks(xs))
    ensures DirectOrdered(xs)
  {
    var rs := DirectRanks(xs);
    forall i, j | 0 <= i < j < |xs|
      ensures DirectRank(xs[i].component) < DirectRank(xs[j].component)
    {
      StepsUpRising(rs, i, j);
    }
  }

  lemma FinalOrderedByRanks(xs: seq<Ingredient>)
    requires StepsUp(FinalRanks(xs))
    ensures FinalOrdered(xs)
  {
    var rs := FinalRanks(xs);
    forall i, j | 0 <= i < j < |xs|
      ensures FinalRank(xs[i].component) < FinalRank(xs[j].component)
    {
      StepsUpRising(rs, i, j);
    }
  }

  /** Some line of the list is for component c. */
  predicate Lists(xs: seq<Ingredient>, c: Component) {
    exists i :: 0 <= i < |xs| && xs[i].component == c
  }

  /** What a line of a style without a pre-ferment must say. */
  predicate DirectLine(key: string, def: RecipeDefinition, t: Totals, x: Ingredient) {
    match x.component
    case Flour => x.name == def.flourType && x.quantity == Grams(t.flour)
    case Water => x.name == FixedName(Water) && x.quantity == Grams(t.water)
    case Salt => x.name == FixedName(Salt) && x.quantity == Grams(t.salt)
    case Yeast => x.name == FixedName(Yeast) && x.quantity == FormatYeast(t.yeast)
    case Oil => x.name == OilName(key) && x.quantity == Grams(t.oil)
    case Sugar => x.name == FixedName(Sugar) && x.quantity == Grams(t.sugar)
    case MaturePreFerment => false
  }

  /** What a line of the final mix of a pre-ferment style must say. */
  predicate FinalLine(def: RecipeDefinition, pf: PreFermentation, s: Split, t: Totals, x: Ingredient) {
    match x.component
    case MaturePreFerment =>
      x.name == MatureName(pf.kind)
      && x.quantity == ApproxPreFerment(Round(s.pfFlour + s.pfWater + s.pfYeast, 0))
    case Flour => x.name == def.flourType && x.quantity == Grams(s.finalFlour)
    case Water => x.name == FixedName(Water) && x.quantity == Grams(s.finalWater)
    case Yeast => x.name == FixedName(Yeast) && x.quantity == FormatYeast(s.finalYeast)
    case Salt => x.name == FixedName(Salt) && x.quantity == Grams(t.salt)
    case Oil => x.name == FixedName(Oil) && x.quantity == Grams(t.oil)
    case Sugar => x.name == FixedName(Sugar) && x.quantity == Grams(t.sugar)
  }

  /** The list of a style without a pre-ferment: flour, water, salt and yeast
      always, oil and sugar exactly when their totals are positive, in that
      order, each line saying its total (oil is "Olive Oil" for focaccia). */
  lemma DirectIngredientsSpec(key: string, def: RecipeDefinition, t: Totals)
    ensures
      var xs := DirectIngredients(key, def, t);
      && DirectOrdered(xs)
      && (forall i :: 0 <= i < |xs| ==> DirectLine(key, def, t, xs[i]))
      && Lists(xs, Flour) && Lists(xs, Water) && Lists(xs, Salt) && Lists(xs, Yeast)
      && (Lists(xs, Oil) <==> t.oil > 0.0)
      && (Lists(xs, Sugar) <==> t.sugar > 0.0)
      && !Lists(xs, MaturePreFerment)
  {
    DirectIngredientsOrdered(key, def, t);
    DirectIngredientsMembers(key, def, t);
    DirectIngredientsLines(key, def, t);
  }

  lemma DirectIngredientsOrdered(key: string, def: RecipeDefinition, t: Totals)
    ensures DirectOrdered(DirectIngredients(key, def, t))
  {
    var xs := DirectIngredients(key, def, t);
    var rs := DirectRanks(xs);
    assert rs[0] == 0 && rs[1] == 1 && rs[2] == 2 && rs[3] == 3;
    assert t.oil > 0.0 ==> rs[4] == 4;
    assert t.sugar > 0.0 ==> rs[|rs| - 1] == 5;
    DirectOrderedByRanks(xs);
  }

  lemma DirectIngredientsLines(key: string, def: RecipeDefinition, t: Totals)
    ensures
      var xs := DirectIngredients(key, def, t);
      forall i :: 0 <= i < |xs| ==> DirectLine(key, def, t, xs[i])
  {
  }

  lemma DirectIngredientsMembers(key: string, def: RecipeDefinition, t: Totals)
    ensures
      var xs := DirectIngredients(key, def, t);
      && Lists(xs, Flour) && Lists(xs, Water) && Lists(xs, Salt) && Lists(xs, Yeast)
      && (Lists(xs, Oil) <==> t.oil > 0.0)
      && (Lists(xs, Sugar) <==> t.sugar > 0.0)
      && !Lists(xs, MaturePreFerment)
  {
    var xs := DirectIngredients(key, def, t);
    assert xs[0].component == Flour && xs[1].component == Water;
    assert xs[2].component == Salt && xs[3].component == Yeast;
    if t.oil > 0.0 {
      assert xs[4].component == Oil;
    }
    if t.sugar > 0.0 {
      assert xs[|xs| - 1].component == Sugar;
    }
  }

  /** The final mix of a pre-ferment style: the matured pre-ferment, the
      flour and water remainders and salt always; the yeast remainder
      exactly when it exceeds 0.001 g; oil and sugar exactly when their
      totals are positive; in that order, each line saying its amount. */
  lemma FinalIngredientsSpec(def: RecipeDefinition, pf: PreFermentation, s: Split, t: Totals)
    ensures
      var xs := FinalIngredients(def, pf, s, t);
      && FinalOrdered(xs)
      && (forall i :: 0 <= i < |xs| ==> FinalLine(def, pf, s, t, xs[i]))
      && Lists(xs, MaturePreFerment) && Lists(xs, Flour) && Lists(xs, Water) && Lists(xs, Salt)
      && (Lists(xs, Yeast) <==> s.finalYeast > 0.001)
      && (Lists(xs, Oil) <==> t.oil > 0.0)
      && (Lists(xs, Sugar) <==> t.sugar > 0.0)
  {
    FinalIngredientsOrdered(def, pf, s, t);
    FinalIngredientsMembers(def, pf, s, t);
    FinalIngredientsLines(def, pf, s, t);
  }

  lemma FinalIngredientsOrdered(def: RecipeDefinition, pf: PreFermentation, s: Split, t: Totals)
    ensures FinalOrdered(FinalIngredients(def, pf, s, t))
  {
    var xs := FinalIngredients(def, pf, s, t);
    var rs := FinalRanks(xs);
    var k := if s.finalYeast > NegligibleYeast then 4 else 3;
    assert rs[0] == 0 && rs[1] == 1 && rs[2] == 2 && rs[k] == 4;
    assert s.finalYeast > NegligibleYeast ==> rs[3] == 3;
    assert t.oil > 0.0 ==> rs[k + 1] == 5;
    assert t.sugar > 0.0 ==> rs[|rs| - 1] == 6;
    FinalOrderedByRanks(xs);
  }

  lemma FinalIngredientsMembers(def: RecipeDefinition, pf: PreFermentation, s: Split, t: Totals)
    ensures
      var xs := FinalIngredients(def, pf, s, t);
      && Lists(xs, MaturePreFerment) && Lists(xs, Flour) && Lists(xs, Water) && Lists(xs, Salt)
      && (Lists(xs, Yeast) <==> s.finalYeast > 0.001)
      && (Lists(xs, Oil) <==> t.oil > 0.0)
      && (Lists(xs, Sugar) <==> t.sugar > 0.0)
  {
    var xs := FinalIngredients(def, pf, s, t);
    var k := if s.finalYeast > NegligibleYeast then 4 else 3;
    assert xs[0].component == MaturePreFerment && xs[1].component == Flour && xs[2].component == Water;
    assert xs[k].component == Salt;
    FinalListsYeast(def, pf, s, t);
    FinalListsOil(def, pf, s, t);
    FinalListsSugar(def, pf, s, t);
  }

  lemma FinalListsYeast(def: RecipeDefinition, pf: PreFermentation, s: Split, t: Totals)
    ensures Lists(FinalIngredients(def, pf, s, t), Yeast) <==> s.finalYeast > NegligibleYeast
  {
    var xs := FinalIngredients(def, pf, s, t);
    if s.finalYeast > NegligibleYeast {
      assert xs[3].component == Yeast;
    }
  }

  lemma FinalListsOil(def: RecipeDefinition, pf: PreFermentation, s: Split, t: Totals)
    ensures Lists(FinalIngredients(def, pf, s, t), Oil) <==> t.oil > 0.0
  {
    var xs := FinalIngredients(def, pf, s, t);
    var k := if s.finalYeast > NegligibleYeast then 4 else 3;
    if t.oil > 0.0 {
      assert xs[k + 1].component == Oil;
    }
  }

  lemma FinalListsSugar(def: RecipeDefinition, pf: PreFermentation, s: Split, t: Totals)
    ensures Lists(FinalIngredients(def, pf, s, t), Sugar) <==> t.sugar > 0.0
  {
    var xs := FinalIngredients(def, pf, s, t);
    if t.sugar > 0.0 {
      assert xs[|xs| - 1].component == Sugar;
    }
  }

  lemma FinalIngredientsLines(def: RecipeDefinition, pf: PreFermentation, s: Split, t: Totals)
    ensures
      var xs := FinalIngredients(def, pf, s, t);
      forall i :: 0 <= i < |xs| ==> FinalLine(def, pf, s, t, xs[i])
  {
  }
}
