/** The static table of dough styles: baker's percentages, the optional
    Biga/Poolish pre-ferment and the step templates of each style. */
module Styles {
  import opened Wrappers
  import opened Templates

  datatype PreFermentType = Biga | Poolish

  /** The word the source prints for a pre-ferment type. */
  function TypeName(t: PreFermentType): string {
    match t
    case Biga => "Biga"
    case Poolish => "Poolish"
  }

  /** Percentages relative to the flour mass; oil and sugar may be absent. */
  datatype BakersPercentages = BakersPercentages(
    water: real,
    salt: real,
    yeast: real,
    oil: Option<real>,
    sugar: Option<real>)

  datatype PreFermentation = PreFermentation(
    kind: PreFermentType,
    flourPercentage: real,   // default share of the total flour, in %
    hydration: real,         // the pre-ferment's own hydration, in %
    yeastPercentage: real)   // share of the total yeast, in %

  datatype RecipeDefinition = RecipeDefinition(
    name: string,
    flourType: string,
    percentages: BakersPercentages,
    preFermentation: Option<PreFermentation>)

  /** Every percentage in a definition is non-negative and the shares of
      the pre-ferment are at most 100 %. The table below satisfies this;
      the engine relies on it for the percentage sum to be positive. */
  predicate WellFormed(def: RecipeDefinition) {
    var p := def.percentages;
    && p.water >= 0.0 && p.salt >= 0.0 && p.yeast >= 0.0
    && (p.oil.Some? ==> p.oil.value >= 0.0)
    && (p.sugar.Some? ==> p.sugar.value >= 0.0)
    && (def.preFermentation.Some? ==>
          var pf := def.preFermentation.value;
          && 0.0 <= pf.flourPercentage <= 100.0
          && pf.hydration >= 0.0
          && 0.0 <= pf.yeastPercentage <= 100.0)
  }

  /** The styles of the table, one per key of the `recipes` record. */
  datatype Style =
    | NeapolitanStyle
    | NewYorkStyle
    | BigaStyle
    | PoolishStyle
    | BrazilianStyle
    | FocacciaStyle

  /** The key under which a style is stored. */
  function Key(s: Style): string {
    match s
    case NeapolitanStyle => "neapolitan"
    case NewYorkStyle => "new_york"
    case BigaStyle => "biga"
    case PoolishStyle => "poolish"
    case BrazilianStyle => "brazilian"
    case FocacciaStyle => "focaccia"
  }

  /** `recipes[doughTypeKey]`: the style stored under a key, if any. */
  function Lookup(key: string): Option<Style> {
    if key == "neapolitan" then Some(NeapolitanStyle)
    else if key == "new_york" then Some(NewYorkStyle)
    else if key == "biga" then Some(BigaStyle)
    else if key == "poolish" then Some(PoolishStyle)
    else if key == "brazilian" then Some(BrazilianStyle)
    else if key == "focaccia" then Some(FocacciaStyle)
    else None
  }

  /** Lookup finds a style exactly under that style's key. */
  lemma LookupKey(key: string, s: Style)
    ensures Lookup(key) == Some(s) <==> key == Key(s)
  {
  }

  /** The property names every object inherits from `Object.prototype`
      (section 20.1.3 of ECMA-262 and the additions of its Annex B). For
      these keys `recipes[key]` finds a function or an object, so the test
      `!definition` does not stop the calculation. */
  predicate InheritedKey(key: string) {
    key in {"constructor", "hasOwnProperty", "isPrototypeOf", "propertyIsEnumerable",
            "toLocaleString", "toString", "valueOf", "__proto__",
            "__defineGetter__", "__defineSetter__", "__lookupGetter__", "__lookupSetter__"}
  }

  /** No inherited name is a key of the table. */
  lemma InheritedKeyNotStored(key: string)
    requires InheritedKey(key)
    ensures Lookup(key).None?
  {
  }

  /** The definition stored for a style. */
  function Definition(s: Style): RecipeDefinition {
    match s
    case NeapolitanStyle =>
      RecipeDefinition("Classic Neapolitan", "\"00\" Flour",
        BakersPercentages(62.0, 2.8, 0.1, None, None),
        None)
    case NewYorkStyle =>
      RecipeDefinition("New York Style", "Bread Flour (High Gluten)",
        BakersPercentages(65.0, 2.5, 0.4, Some(2.0), Some(1.0)),
        None)
    case BigaStyle =>
      RecipeDefinition("Biga (Pre-ferment)", "\"00\" Flour or Bread Flour",
        BakersPercentages(68.0, 3.0, 0.2, None, None),
        Some(PreFermentation(Biga, 40.0, 45.0, 25.0)))
    case PoolishStyle =>
      RecipeDefinition("Poolish (Pre-ferment)", "\"00\" Flour or All-Purpose Flour",
        BakersPercentages(70.0, 2.8, 0.15, None, None),
        Some(PreFermentation(Poolish, 30.0, 100.0, 33.0)))
    case BrazilianStyle =>
      RecipeDefinition("Brazilian Style", "All-Purpose Flour",
        BakersPercentages(55.0, 1.8, 1.5, Some(5.0), Some(3.0)),
        None)
    case FocacciaStyle =>
      RecipeDefinition("Focaccia", "Bread Flour or All-Purpose Flour",
        BakersPercentages(75.0, 2.2, 0.8, Some(5.0), None),
        None)
  }

  /** Every definition in the table is well formed. */
  lemma DefinitionsWellFormed(s: Style)
    ensures WellFormed(Definition(s))
  {
  }

  /** Exactly the Biga and Poolish styles carry a pre-ferment, of their
      own type. */
  lemma PreFermentStyles(s: Style)
    ensures Definition(s).preFermentation.Some? <==> s == BigaStyle || s == PoolishStyle
    ensures s == BigaStyle ==> Definition(s).preFermentation.value.kind == Biga
    ensures s == PoolishStyle ==> Definition(s).preFermentation.value.kind == Poolish
  {
  }

  /** The instruction texts of the table: the final-dough step templates of
      each style and the pre-ferment's own steps of each pre-ferment type.
      The engine receives them as a value, so that the proofs about the
      numbers never have to look inside the long literals. */
  datatype StepTexts = StepTexts(
    templates: Style -> seq<Template>,
    preFermentSteps: PreFermentType -> seq<string>)

  /** The texts of the repository's table. */
  function RepositoryTexts(): StepTexts {
    StepTexts(StepTemplates, PreFermentSteps)
  }

  /** The pre-ferment's own steps, emitted verbatim. */
  function PreFermentSteps(t: PreFermentType): seq<string> {
    match t
    case Biga => BigaPreFermentSteps()
    case Poolish => PoolishPreFermentSteps()
  }

  /** The final-dough step templates of a style. */
  function StepTemplates(s: Style): seq<Template> {
    match s
    case NeapolitanStyle => NeapolitanSteps()
    case NewYorkStyle => NewYorkSteps()
    case BigaStyle => BigaSteps()
    case PoolishStyle => PoolishSteps()
    case BrazilianStyle => BrazilianSteps()
    case FocacciaStyle => FocacciaSteps()
  }

  function BigaPreFermentSteps(): seq<string> {
    [ "Mix Biga Ingredients: Combine Biga flour, Biga water, and Biga yeast. Mix briefly until just combined (shaggy, stiff dough). Do not knead.",
      "Ferment Biga: Cover loosely and let ferment at cool room temp (16-18°C) for 12-16 hours OR in the fridge (4°C) for 24-48 hours." ]
  }

  function PoolishPreFermentSteps(): seq<string> {
    [ "Mix Poolish Ingredients: Whisk together Poolish flour, Poolish water, and Poolish yeast until smooth (liquid batter).",
      "Ferment Poolish: Cover and let ferment at room temp (~20-22°C) for 8-12 hours, or until bubbly, domed, and just starting to recede in the center." ]
  }

  function NeapolitanSteps(): seq<Template> {
    [ [Text("Combine flour and most of the water (reserve ~30ml). Mix until shaggy.")],
      [Text("Dissolve salt in remaining water and add to dough. Knead for 5-10 mins until smooth.")],
      [Text("Add yeast, incorporate fully. Knead for another 5 mins until elastic (windowpane test).")],
      [Text("Bulk Ferment: Cover dough and let rise at room temp (~20-24°C) for 2 hours.")],
      [Text("Divide and Ball: Divide dough into "), BallCount, Text(" portions. Shape into smooth balls.")],
      [Text("Final Proof: Place balls in lightly oiled containers or a proofing box. Proof at room temp for 4-6 hours OR cold proof (fridge ~4°C) for 24-72 hours.")],
      [Text("Before use (if cold proofed), let balls sit at room temp for 1-2 hours.")] ]
  }

  function NewYorkSteps(): seq<Template> {
    [ [Text("Combine flour, salt, yeast and sugar in a mixer bowl.")],
      [Text("Add water and oil. Mix on low speed with dough hook until combined.")],
      [Text("Increase speed to medium-low and knead for 8-12 minutes until smooth, elastic, and passes windowpane test.")],
      [Text("Bulk Ferment: Lightly oil a bowl, place dough in, turn to coat. Cover and let rise at room temp for 1-2 hours OR proceed directly to cold fermentation.")],
      [Text("Divide and Ball: Divide dough into "), BallCount, Text(" portions. Shape into tight balls.")],
      [Text("Cold Proof (Recommended): Place balls in oiled containers/bags. Refrigerate for 24-72 hours (48h often ideal).")],
      [Text("Temper: Before baking, remove dough from fridge and let it sit at room temp for 60-90 minutes.")] ]
  }

  function BigaSteps(): seq<Template> {
    [ [Text("Combine Final Dough Ingredients: In a mixer bowl, combine the mature Biga (tear into small pieces), remaining flour, remaining yeast, and most of the remaining water.")],
      [Text("Mix Low: Mix on low speed until ingredients start coming together.")],
      [Text("Add Salt & Remaining Water: Dissolve salt in the last bit of water and add slowly while mixing on low.")],
      [Text("Knead: Increase speed to medium-low and knead for 10-15 minutes until smooth and elastic.")],
      [Text("Bulk Ferment: Cover dough and let rise at room temp for 1-2 hours (watch the dough, not the clock).")],
      [Text("Divide and Ball: Divide dough into "), BallCount, Text(" portions and shape into balls.")],
      [Text("Final Proof: Place in containers. Proof at room temp for 3-5 hours OR cold proof for 12-48 hours.")],
      [Text("Temper: Before use (if cold proofed), let balls sit at room temp for 1-2 hours.")] ]
  }

  function PoolishSteps(): seq<Template> {
    [ [Text("Combine Final Dough: In a mixer bowl, combine mature Poolish, remaining flour, remaining yeast, and salt.")],
      [Text("Add Water Gradually: Slowly add remaining water while mixing on low speed.")],
      [Text("Knead: Knead on medium-low speed for 8-12 minutes until dough is strong and elastic.")],
      [Text("Bulk Ferment: Cover dough, let rise at room temp for 1.5-2.5 hours, with folds every 45-60 mins if desired.")],
      [Text("Divide and Ball: Gently divide into "), BallCount, Text(" portions and shape into balls.")],
      [Text("Final Proof: Proof at room temp for 3-4 hours or cold proof for 12-24 hours.")],
      [Text("Temper: If cold proofed, temper at room temp for 1-2 hours before use.")] ]
  }

  function BrazilianSteps(): seq<Template> {
    [ [Text("Combine Dry Ingredients: Whisk flour, salt, yeast, and sugar in a bowl.")],
      [Text("Add Wet Ingredients: Add water and oil. Mix until a shaggy dough forms.")],
      [Text("Knead: Knead on a lightly floured surface or in a mixer for 8-10 minutes until smooth and soft.")],
      [Text("Bulk Ferment: Place in a lightly oiled bowl, cover, and let rise in a warm place for 1-1.5 hours, or until doubled.")],
      [Text("Punch Down & Divide: Gently punch down the dough. Divide into "), BallCount, Text(" portions.")],
      [Text("Shape & Second Rise: Shape into balls or directly into pizza bases. Let rest/rise for another 20-30 minutes.")],
      [Text("Top and Bake: Add toppings and bake in a hot oven.")] ]
  }

  function FocacciaSteps(): seq<Template> {
    [ [Text("Combine Ingredients: In a large bowl, whisk together flour, salt, and yeast.")],
      [Text("Add Water & Oil: Add water and oil. Mix with a spatula or hands until a very wet, shaggy dough forms. No extensive kneading needed.")],
      [Text("First Rise (Bulk Ferment): Cover the bowl. Let rise at room temperature for 1.5-2 hours, performing 2-3 sets of stretch-and-folds in the bowl during the first hour (wet hands to prevent sticking).")],
      [Text("Pan Prep: Generously oil a baking sheet or pan (e.g., 9x13 inch).")],
      [Text("Transfer & Shape: Gently transfer the dough to the oiled pan. Oil your hands and gently stretch/press the dough towards the edges of the pan. Don't force it if it resists; let it rest for 10-15 minutes and try again.")],
      [Text("Second Rise (Proof in Pan): Cover the pan loosely. Let the dough proof at room temperature for 1-1.5 hours, until puffy and nearly doubled.")],
      [Text("Dimple & Top: Preheat oven to 220°C (425°F). Oil your fingertips and dimple the dough all over, pressing down firmly to the bottom of the pan. Drizzle with more olive oil and sprinkle with flaky sea salt and optional herbs (like rosemary).")],
      [Text("Bake: Bake for 20-25 minutes, or until golden brown and cooked through.")],
      [Text("Cool: Let cool in the pan for a few minutes before transferring to a wire rack.")] ]
  }
}
