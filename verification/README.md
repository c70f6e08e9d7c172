# Dough formulation engine — a Dafny model

This project models the pizza-dough formulation engine of `src/data/recipes.ts`:
- the static table of six dough styles (Neapolitan, New York, Biga, Poolish, Brazilian, Focaccia). Each style has baker's percentages, an optional Biga or Poolish pre-ferment and step templates;
- the helpers `round` and `formatYeast`;
- the pure function `getCalculatedRecipe`.

`getCalculatedRecipe` takes a style key, a ball count, a ball weight, an optional pre-ferment flour share and an optional dough hydration. It does the following:
- derives the total flour from the percentage sum;
- derives water, salt, yeast, oil and sugar from that flour, each rounded to its own number of decimals;
- for the two pre-ferment styles, splits flour, water and yeast between the pre-ferment and the final mix, and refuses a split that leaves a negative remainder;
- builds the ordered ingredient lists;
- substitutes the ball count into the step templates.

Files:
- `wrappers.dfy` holds `Option` and `Result`.
- `rounding.dfy` holds `Math.round(v * 10^d) / 10^d` on exact reals, as `Floor(v * 10^d + 1/2) / 10^d`. It proves that this is the unique nearest d-decimal value, half-way cases going up.
- `templates.dfy` holds step templates as sequences of literal pieces and ball-count tokens, their rendering, and the decimal numeral of the count.
- `styles.dfy` holds the style table. `Lookup` plays the part of `recipes[key]`. `Definition` holds each style's percentages, and `RepositoryTexts` holds the table's step texts.
- `formulation.dfy` holds `formatYeast`, the override windows, the totals, the split, the ingredient lists and `GetCalculatedRecipe`.
- `formulation_proofs.dfy` and `ingredient_proofs.dfy` hold the properties relating these.

Modelling choices:
- Quantities are `real`.
- A printed quantity is a `Quantity` rather than a formatted string:
  - `Grams(g)` for `${g}g`;
  - `ApproxPreFerment(g)` for the `~${g}g (All from above)` line;
  - `TinyPinch` for `< 0.01g (a tiny pinch)`.
- The fixed line names ("Water", "Salt", "Instant Dry Yeast", "Oil", "Sugar") come from `Formulation.FixedName`. Focaccia's "Olive Oil" comes from `OilName`, and "Mature Biga"/"Mature Poolish" from `MatureName`.
- `null` is `Success(None)`.
- The engine's own thrown error is `Failure(NegativeRemainder)`.
- A key inherited from `Object.prototype`, such as `"toString"`, passes the `!definition` test at line 194 because the lookup finds a function. The code then computes NaN totals without complaint and throws a `TypeError` at line 294, where it maps the missing `fermentationSteps`. The model returns `Failure(NotARecipe)` for the twelve names `Styles.InheritedKey` lists.
- The step texts are passed to `GetCalculatedRecipe` as a `StepTexts` value, and the repository's own texts are `RepositoryTexts()`. Every property is therefore proved for any texts, the repository's included.

## Model

| member | source | states |
|---|---|---|
| Rounding.Round | src/data/recipes.ts:35-38 | The result has at most d decimals and lies in (v − ½·10^-d, v + ½·10^-d]. |
| Rounding.RoundIsNearest | src/data/recipes.ts:35-38 | Any value with d decimals in that half-open interval is the rounded value, so rounding picks the nearest d-decimal value with halves going up. |
| Rounding.RoundKeepsDecimals | src/data/recipes.ts:35-38 | Rounding a value that already has d decimals returns it unchanged, so rounding is idempotent. |
| Rounding.RoundMonotone | src/data/recipes.ts:35-38 | a ≤ b implies round(a, d) ≤ round(b, d). |
| Rounding.RoundNonNegative | src/data/recipes.ts:35-38 | Rounding a non-negative value never yields a negative one. |
| Formulation.FormatYeast | src/data/recipes.ts:41-45 | The tiny-pinch marker appears exactly when the weight is below 0.01 g. In [0.01, 0.1) the result is grams with two decimals within 0.005 g of the weight. From 0.1 g on it is grams with one decimal within 0.05 g. |
| FormulationProofs.FormatYeastExamples | src/data/recipes.ts:41-45 | 0.004 g is a tiny pinch; 0.05 g stays 0.05 g; 0.37 g prints as 0.4 g and 0.46 g as 0.5 g. |
| Styles.Lookup | src/data/recipes.ts:193 | `recipes[key]` for the table's own keys; `Styles.LookupKey` states which key finds which style. |
| Styles.InheritedKeyNotStored | src/data/recipes.ts:193-194 | None of the twelve property names every object inherits from `Object.prototype` is a key of the table. |
| Styles.Definition | src/data/recipes.ts:47-184 | The name, flour, baker's percentages and pre-ferment of each style, value for value; `Styles.DefinitionsWellFormed` and `Styles.PreFermentStyles` state their properties. |
| Styles.RepositoryTexts | src/data/recipes.ts:47-184 | The table's step texts, passed to `GetCalculatedRecipe`: the final-dough templates of each style and the pre-ferment steps of each type. |
| Styles.StepTemplates | src/data/recipes.ts:56-182 | Each style's `fermentationSteps`, string by string, with each `{numberOfBalls}` as a token piece. |
| Styles.PreFermentSteps | src/data/recipes.ts:99-132 | The `steps` of the biga and the poolish pre-ferment, string by string. |
| Styles.LookupKey | src/data/recipes.ts:47-184 | A key finds a style exactly when it is that style's key in the table. |
| Styles.DefinitionsWellFormed | src/data/recipes.ts:47-184 | Every percentage in the table is non-negative, and every pre-ferment share lies in [0, 100]. |
| Styles.PreFermentStyles | src/data/recipes.ts:86-141 | Exactly the biga and poolish styles carry a pre-ferment, each of its own type. |
| Formulation.EffectivePercentages | src/data/recipes.ts:196-205 | The style's percentages with only the water changed. The water is the override exactly when the style takes one and the override lies in [50, 100], and the style's own water otherwise. |
| Formulation.PercentageSum | src/data/recipes.ts:209-215 | 100 for the flour plus the water, salt and yeast percentages and the oil and sugar percentages when present; its properties are stated by `Formulation.PercentagesFor` (at least 100 for the table) and `FormulationProofs.MassBalance`. |
| Formulation.ComputeTotals | src/data/recipes.ts:207-222 | Flour, water, oil and sugar are whole grams; salt has one decimal and yeast two. Each total lies within its rounding half-unit of weight ÷ (sum/100), or of the flour times its percentage. Oil and sugar are 0 when their percentage is absent or zero. |
| FormulationProofs.MassBalance | src/data/recipes.ts:207-222 | The totals add up to the dough weight within sum/200 + 1.555 g, which is the flour's rounding scaled by the percentage sum plus each other ingredient's rounding. |
| FormulationProofs.TableMassBalance | src/data/recipes.ts:207-222 | For every style of the table, with or without a hydration override, the totals are within 3 g of balls × ball weight. |
| FormulationProofs.TotalsNonNegative | src/data/recipes.ts:207-222 | A non-negative weight with non-negative percentages gives a positive percentage sum and non-negative totals. |
| Formulation.PreFermentShare | src/data/recipes.ts:233-235 | The share is the override exactly when it lies in [10, 80], and the pre-ferment's default otherwise. |
| Formulation.SplitPreFerment | src/data/recipes.ts:238-251 | Pre-ferment plus final equals the total for flour, water and yeast. Pre-ferment flour and water are whole, and pre-ferment yeast has two decimals. Each pre-ferment amount is within its rounding half-unit of its share. |
| Formulation.RenderSteps | src/data/recipes.ts:294-296 | One step per template, each step being its template rendered with the count. |
| Formulation.GetCalculatedRecipe | src/data/recipes.ts:186-300 | The result is null exactly for a key that is neither in the table nor inherited, and the type error exactly for an inherited key. The negative-remainder error comes only from a pre-ferment style. A recipe carries the style's name and the water % actually used. Its three pre-ferment fields are present exactly for pre-ferment styles. |
| FormulationProofs.UnknownStyle | src/data/recipes.ts:193-194 | The result is null, and not an error, exactly when the key is none of the six table keys and no inherited property name. It is the type error exactly for an inherited property name. |
| FormulationProofs.HydrationUsed | src/data/recipes.ts:196-217 | `hydrationUsed` is the override exactly when the key is neapolitan, biga or poolish and the override lies in [50, 100]; otherwise it is the style's water %. The total water is computed from that same percentage. |
| FormulationProofs.HydrationOverrideIgnored | src/data/recipes.ts:199-205 | An override outside [50, 100], or one for any other style, gives the same result as no override. |
| FormulationProofs.PreFermentShareUsed | src/data/recipes.ts:233-238 | The pre-ferment share is the override when it lies in [10, 80] and the style's default otherwise. It is reported in `preFermentPercentageUsed` and sizes the pre-ferment flour. |
| FormulationProofs.PreFermentOverrideIgnored | src/data/recipes.ts:233-235 | A pre-ferment override outside [10, 80] gives the same result as none. |
| FormulationProofs.NoPreFermentFields | src/data/recipes.ts:224-231 | A style without a pre-ferment always succeeds. It leaves all three pre-ferment fields absent and ignores the pre-ferment override. |
| FormulationProofs.SplitSumsToTotals | src/data/recipes.ts:243-260 | The flour and water printed in the pre-ferment list plus those printed in the final list equal the total flour and water, and the two yeast amounts add to the total yeast. |
| FormulationProofs.PreFermentWaterOwnHydration | src/data/recipes.ts:238-240 | The pre-ferment flour and water depend on the total flour only, not on the dough water, and the water follows the pre-ferment's own hydration. |
| FormulationProofs.FinalFlourNonNegative | src/data/recipes.ts:238-254 | With whole non-negative total flour and a share of at most 100 %, the flour remainder is never negative. |
| FormulationProofs.FailsExactlyOnWaterShortfall | src/data/recipes.ts:249-256 | For a non-negative dough weight the flour remainder is non-negative. The calculation fails exactly when the water remainder is negative. |
| FormulationProofs.PoolishAtEightyPercentFails | src/data/recipes.ts:249-256 | One 1000 g poolish ball with an 80 % pre-ferment and 50 % hydration fails with the negative-remainder error. |
| FormulationProofs.NoNegativeQuantities | src/data/recipes.ts:238-284 | A successful calculation for a non-negative dough weight prints no negative quantity in either list. |
| Formulation.DirectIngredients | src/data/recipes.ts:273-284 | The list of a style without a pre-ferment; `IngredientProofs.DirectIngredientsSpec` states its order, presence and content. |
| Formulation.PreFermentIngredients | src/data/recipes.ts:243-247 | The pre-ferment's own list; `FormulationProofs.PreFermentList` states it in terms of the totals and the share. |
| Formulation.FinalIngredients | src/data/recipes.ts:258-270 | The final mix of a pre-ferment style; `IngredientProofs.FinalIngredientsSpec` states its order, presence and content. |
| IngredientProofs.DirectIngredientsSpec | src/data/recipes.ts:273-284 | Without a pre-ferment, the lines run flour, water, salt, yeast, oil, sugar, each at most once. Oil appears exactly when its total is positive, and so does sugar. Each line states its total, and oil is called "Olive Oil" only for focaccia. |
| FormulationProofs.PreFermentList | src/data/recipes.ts:238-247 | A successful pre-ferment recipe lists three pre-ferment lines. The first is the share used of the total flour, rounded to whole grams and named after the pre-ferment type and the flour. The second is water at the pre-ferment's own hydration of that printed flour. The third is the pre-ferment's percentage of the total yeast, rounded to two decimals and formatted as yeast. |
| IngredientProofs.FinalIngredientsSpec | src/data/recipes.ts:258-270 | With a pre-ferment, the lines run matured pre-ferment, flour, water, yeast, salt, oil, sugar, each at most once. The matured pre-ferment, flour, water and salt always appear. Yeast appears exactly when its remainder exceeds 0.001 g, oil and sugar exactly when positive. The matured line is ≈ round(pre-ferment flour + water + yeast). |
| FormulationProofs.StepsSubstituted | src/data/recipes.ts:294-296 | For every integer count, there are as many steps as templates, and each step is its template with every token replaced by the count's text. That text reads back as the count, after a "-" when the count is negative. A template without the token comes out verbatim, and the pre-ferment steps pass through unchanged. |
| FormulationProofs.NeapolitanScenario | src/data/recipes.ts:186-300 | Three 250 g Neapolitan balls need 455 g flour, 282 g water, 12.7 g salt and yeast printed as 0.5 g, at 62 % hydration. |
| FormulationProofs.BigaScenario | src/data/recipes.ts:207-251 | Four 250 g biga balls make totals of 584/397/17.5/1.17. The split is 234 g flour, 105 g water and 0.29 g yeast for the biga, and 350 g, 292 g and 0.88 g for the final mix. |
| Templates.Render | src/data/recipes.ts:294-296 | Each token of a template replaced by the count's text, literal pieces copied. `Templates.RenderIsReplaceAll` relates it to the replacement over the stored text. |
| Templates.ReplaceAll | src/data/recipes.ts:295 | The global replacement of `{numberOfBalls}` on plain text: a left-to-right scan that replaces each occurrence, skips past it, and copies every other character. |
| Templates.RenderIsReplaceAll | src/data/recipes.ts:294-296 | When no literal piece holds an opening brace, rendering a template equals the global replacement applied to its stored text. |
| Templates.RenderPlaceholderIsSource | src/data/recipes.ts:294-296 | Rendering with the token's own spelling gives back the stored template. |
| Templates.RenderWithoutToken | src/data/recipes.ts:294-296 | A template without the token renders verbatim for any count. |
| Templates.NatToStringRoundTrip | src/data/recipes.ts:295 | The decimal numeral of a count reads back as that count. |
| Templates.IntToString | src/data/recipes.ts:295 | `numberOfBalls.toString()` for an integer count: the count's own decimal numeral. A non-negative count gives digits that read back as the count, with no leading zero when positive; a negative count gives "-" followed by such a numeral of its magnitude. |

## Left out

- Floating point: IEEE-754 effects of every arithmetic step (`Math.pow`, `Math.round`, `*`, `/` and the subtractions that form the final-mix remainders) are not modelled; quantities are exact reals. Where an exact intermediate value lies at a half-way point, its double can fall just below it, so a rounded or formatted quantity can differ from the program's by one unit of its last kept decimal (1 g, 0.1 g or 0.01 g). NaN and infinite inputs are not modelled either. Two examples of the one-unit difference:
  - for one 285 g poolish ball the flour is 165 g, 165 × (70/100) is 115.49999999999999 in doubles, and the program prints 115 g of water where the model gives 116 g;
  - for one 963 g biga ball the total yeast 1.13 minus the pre-ferment yeast 0.28 is 0.8499999999999999 in doubles, so the program prints 0.8 g of final yeast where the model gives 0.9 g.
- Number-to-string rendering of quantities (`${x}g`) is replaced by the `Quantity` datatype. The exception's message text is replaced by the `NegativeRemainder` error value.
- Singular/plural: there is no singular/plural wording. The count goes into the same text for every count.
- Regular expression: the replacement `/\{numberOfBalls\}/g` is modelled twice. `Templates.Render` renders a template whose tokens are explicit pieces, and `Templates.ReplaceAll` is the left-to-right search-and-replace over the stored text. `Templates.RenderIsReplaceAll` proves that the two agree whenever no literal piece contains an opening brace.
- Non-integer ball counts: the count is an integer, rendered as its decimal numeral with a leading "-" when negative. JavaScript's rendering of fractional counts is not modelled.
- Templates.IntToString: JavaScript writes integers of magnitude 10^21 or more in exponent form ("1e+21"), whereas `IntToString` writes every digit. This does not affect counts the page accepts (1–20).
- Step texts: the texts are a parameter of `GetCalculatedRecipe`, and the repository's own texts are `Styles.RepositoryTexts`. No property is stated about the wording of individual steps, because their literals are too large for the proofs to unfold.
- Styles.RepositoryTexts: that no literal piece of the table's templates contains an opening brace, which `Templates.RenderIsReplaceAll` needs, is not proved for the same reason.
- Mass balance: the code states no relation between the totals and the dough weight. `MassBalance` bounds the totals against the exact weight balls × ball weight, and `TableMassBalance` narrows that to 3 g for the table's styles.
- Idempotence: two calls with equal inputs give equal outputs because every member is a pure function. There is no separate lemma for this.
- Out of scope:
  - the page's form validation (1–20 balls, 150–1000 g);
  - the language-model recipe flow and its registry;
  - the sample recipe data with delayed lookups;
  - the UI components.
