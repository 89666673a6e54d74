# Recipe app core in Dafny

A model of the non-UI core of `streamlit_app.py`, a Streamlit app that asks a
language model for Japanese home-cooking recipes and then post-processes
them. The model covers:

- the data records: `Ingredient`, `Step`, `Recipe` and `DayPlan`;
- step-prefix stripping;
- ingredient-amount normalisation: splitting a quantity out of a name,
  sanitising an amount, guessing a missing one, and the child-mode
  adjustment;
- the quality check and the filter that keeps passing recipes;
- tool inference from keywords;
- the nutrition and cost estimates over the `FOODS` table, and grading
  against a nutrition profile;
- the week planner (`plan_week`): the initial rotation, the budget check,
  the cheap re-planning rounds, and the weekly nutrition summary;
- the weekly shopping list: aggregation, pretty printing and categories.

Modules, one per file:

- `Wrappers`: `Option`.
- `Text`:
  - Python string helpers: `in`, `strip`, `replace` and `lower`;
  - the number scanners used by the regular expressions;
  - the rendering of integers and of `:g`;
  - Python's `round`, which rounds halves to even.
- `Recipes`: the records.
- `Quantity`: source lines 88-252.
- `Tools`: source lines 257-282.
- `Quality`: source lines 287-308.
- `Estimate`: source lines 313-482.
- `Week`: source lines 587-678, the week built by `plan_week` around any
  day maker (the rotation, the dearest-first sort and the re-planning
  rounds).
- `Planner`: `make_day`, `plan_week` itself and
  `weekly_nutrition_summary`, source lines 590-689.
- `Shopping`: source lines 905-953.

How the Python code is modelled:

- Regular expressions are written as scanning functions that mirror the
  patterns' alternatives in their order.
- `\d` matches ASCII and full-width digits.
- `[0-9]` matches ASCII digits only.
- `\s` and `strip` use Python's whitespace set.
- Python floats are Dafny `real`s.
- Dictionaries that the code iterates in insertion order are sequences of
  pairs.

Imperative code:

- `quality_check`, `infer_tools_from_recipe`, `normalize_ingredients`,
  `estimate_nutrition`, `estimate_cost_yen`, `plan_week` and its loops,
  `weekly_nutrition_summary` and `aggregate_shopping` are methods with
  loops.
- Each of these methods is proved equal to a specification function: for
  instance `Week.ReplanRound` computes `Week.RoundOf`, `Week.Replan`
  computes `Week.ReplanOf` and `Planner.PlanWeek` returns
  `Week.WeekPlanOf`.
- The properties are proved as lemmas about those functions.

The recipe generator (`generate_recipes`, an OpenAI call) is an oracle:

- `Planner.Generator` maps a protein hint, the cheap flag and a call
  number to the list of recipes the model returns.
- `Planner.MakeDay` models `make_day` on top of it.
- The planner itself takes any `DayMaker` function, the signature
  `make_day` has as seen by the planner. Its properties therefore hold
  for every generator.

Behaviour of the code worth knowing:

- A recipe with one ingredient, no amount and no steps draws four
  warnings: too few ingredients, too few steps, no heat word and no
  seasoning (`Quality.UmeFourWarnings`).
- Sanitising an amount is not idempotent: "1..00" becomes "1.0" and then
  "1" (`Quantity.SanitizeNotIdempotent`).
- Normalising leaves recipes otherwise alone: it adds no ingredient and no
  step (`Quantity.NormalizeAllAt`).

## Model

| member | source | states |
|---|---|---|
| Text.NatToString | streamlit_app.py:134 | the decimal text of a whole number is made of ASCII digits and reads back as that number |
| Text.RoundHalfEven | streamlit_app.py:126 | Python's `round` is within one half of its argument, even on exact halves, exact on integers, never negative for a non-negative argument |
| Text.HalvesGIsFormatG | streamlit_app.py:123 | `:g` of every multiple of one half is `HalvesG`: the digits with at most a trailing ".5" below 100000, and the value rounded half to even to a whole number from 100000 on, where six significant digits leave no room for the ".5" |
| Text.HalvesTextIsFormatG | streamlit_app.py:123 | below 100000, `:g` of a multiple of one half is the digits with at most a trailing ".5" |
| Text.BigHalvesLoseTheHalf | streamlit_app.py:123 | `:g` shows 100000.5 as "100000" and 123456.5 as "123456" |
| Text.ScanHalvesG | streamlit_app.py:185-191 | the number scanner reads a `HalvesG` text back as the value it shows: h / 2 below 100000, the rounded whole number from there |
| Text.ScanHalves | streamlit_app.py:186-191 | a rendered half-spoon number scans back to the same value |
| Text.FirstKey | streamlit_app.py:137-157 | a `for key in table: if key in name` loop finds the first key contained in the name, and none exactly when no key is contained |
| Text.Strip | streamlit_app.py:92 | a stripped text neither begins nor ends with whitespace, and a text that does neither is unchanged |
| Text.StripIsInfix | streamlit_app.py:92 | the text is its stripped form with a run of whitespace before and one after, so strip removes only whitespace and only at the ends |
| Quantity.StripStepPrefix | streamlit_app.py:88-92 | the result is stripped; a text without a step prefix is only stripped |
| Quantity.StripNumberedStep | streamlit_app.py:89-92 | "12." followed by text loses the number |
| Quantity.StripCircledStep | streamlit_app.py:89-92 | a circled step number is removed |
| Quantity.StripLabelledStep | streamlit_app.py:89-92 | "STEP 2: " is removed together with its separators |
| Quantity.HasNumberIffDigit | streamlit_app.py:114-116 | a number is found exactly when an ASCII digit occurs |
| Quantity.RoundTspToPretty | streamlit_app.py:118-127 | the rendering is never empty and is "少々" exactly for at most 0.15 tsp |
| Quantity.RoundTspReadsBack | streamlit_app.py:118-127 | the rendered spoon reads back as tablespoons from 3 tsp on and as teaspoons below, within a quarter spoon of the exact amount; from about 100000 tablespoons on, where `:g` drops the half, within three quarters of a tablespoon |
| Quantity.RoundedGrams | streamlit_app.py:129-134 | the prettified weight is a multiple of its step (10, 25 or 50 g), within half a step of the weight, and not negative for a non-negative weight |
| Quantity.GramsToPrettyNotIdempotent | streamlit_app.py:129-134 | 55 g becomes 60 g, which becomes 50 g: prettifying twice differs from once |
| Quantity.GuessAmount | streamlit_app.py:136-160 | a guessed amount is never empty |
| Quantity.GuessUnlisted | streamlit_app.py:158-160 | a name in no table gets "少々" when it mentions pepper or chili words, else "適量" |
| Quantity.GuessEggs | streamlit_app.py:137-145 | eggs are guessed as one whole piece per serving |
| Quantity.GuessOilReadsBack | streamlit_app.py:146-154 | a name in none of the piece, protein and vegetable tables whose first oil key gives tsp teaspoons is guessed "少々" for at most 0.15 tsp, and otherwise as an amount that reads back as tablespoons from 3 tsp on (within 0.75 tsp below 299997 tsp, within 2.25 tsp beyond) and as teaspoons below (within a quarter teaspoon) |
| Quantity.GuessCondimentReadsBack | streamlit_app.py:146-157 | the same for a name in no oil table whose first condiment key gives tsp teaspoons |
| Quantity.GuessSoySauceForFour | streamlit_app.py:155-157 | soy sauce for four is guessed as one and a half tablespoons |
| Quantity.SplitQuantityFromName | streamlit_app.py:169-175 | the name is empty only when the input is, and a found quantity is never empty |
| Quantity.SplitPlainName | streamlit_app.py:169-175 | a name without whitespace that does not start like a quantity comes back unchanged, with no quantity |
| Quantity.SplitTrailingGrams | streamlit_app.py:162-175 | "<name> <digits>g" splits into the name and the weight |
| Quantity.SearchQtyNone | streamlit_app.py:162-171 | the search from p finds nothing exactly when no match starts at or after p |
| Quantity.SearchQtyFirst | streamlit_app.py:162-171 | a found quantity is the group of a match at some q at or after p with no match starting in between |
| Quantity.SplitQuantityFromNameSpec | streamlit_app.py:162-175 | a quantity is returned exactly when the pattern matches somewhere in the name, and it is the group of the leftmost match; without a match the name comes back stripped with its whitespace runs collapsed, or whole when that leaves nothing |
| Quantity.SplitBareGrams | streamlit_app.py:162-175 | a name that is only "<digits>g" is its own quantity and also comes back whole as the name |
| Quantity.ReplaceNoMatch | streamlit_app.py:173 | substitution copies a stretch without matches unchanged |
| Quantity.SanitizeAmount | streamlit_app.py:177-183 | the result is missing exactly when the amount is falsy, and is never one of the zero forms |
| Quantity.SanitizeClean | streamlit_app.py:177-183 | on an amount with no surrounding space and no full-width point, sanitising only deletes each ".0" and replaces a zero form |
| Quantity.SanitizeZeroForms | streamlit_app.py:181-182 | each zero form becomes "少々" |
| Quantity.SanitizeDropsInnerDotZero | streamlit_app.py:180 | every ".0" is deleted, not only a trailing one: "1.05g" becomes "15g" |
| Quantity.SanitizeNotIdempotent | streamlit_app.py:177-183 | "1..00" sanitises to "1.0" and then to "1" |
| Quantity.SanitizeKeepsClean | streamlit_app.py:177-183 | an amount without surrounding space, full-width point, zero digit or zero form is kept |
| Quantity.AmountToUnitValue | streamlit_app.py:185-197 | the value is never negative, and it is 0 when no unit is found |
| Quantity.NoDigitNoUnit | streamlit_app.py:185-197 | an amount without a digit has no unit and value 0 |
| Quantity.SpoonTextParses | streamlit_app.py:185-191 | a rendered spoon amount reads back with its own unit and the value its text shows |
| Quantity.UnitValueToAmount | streamlit_app.py:199-215 | the rendering is never empty |
| Quantity.SpoonRoundTrip | streamlit_app.py:185-207 | a positive spoon amount that is a multiple of one half, rendered and read back, gives the same unit and value below 100000 spoons, and the value rounded half to even to a whole spoon from there |
| Quantity.SpoonRerenderStable | streamlit_app.py:199-207 | rendering the half-rounded value again gives the same text |
| Quantity.OilWordMakesCondiment | streamlit_app.py:217-219 | any name containing 油 counts as a condiment |
| Quantity.AdjustChildFriendlyAmount | streamlit_app.py:224-234 | an empty amount stays empty and a non-empty one stays non-empty; a spicy name is served later to adults; a name neither spicy nor a condiment, or an amount not in spoons or grams, is kept |
| Quantity.GramTextParses | streamlit_app.py:185-197 | "<n>g" reads back as n grams |
| Quantity.ScaledSpoonReadsBack | streamlit_app.py:185-207 | a spoon value rendered after scaling reads back as the same unit at the scaled value rounded to half a spoon (below 100000 spoons; the whole spoon shown from there) |
| Quantity.ScaledGramsReadBack | streamlit_app.py:185-215 | a positive weight rendered in grams reads back as the prettified rounded weight |
| Quantity.AdjustedSpoonReadsBack | streamlit_app.py:224-233 | a mild condiment in spoons, scaled by the factor, reads back in the same unit as the scaled amount rounded to half a spoon (below 100000 spoons; the whole spoon shown from there), or becomes "少々" when that rounds to nothing |
| Quantity.AdjustedGramsReadBack | streamlit_app.py:224-233 | a mild condiment in grams, scaled by the factor, reads back as the prettified rounded scaled weight, or becomes "少々" when the scaled weight is not positive |
| Quantity.ChildSaltBecomesZeroGrams | streamlit_app.py:224-234 | child mode can show a zero amount: 4 g of salt times 0.8 becomes "0g" |
| Quantity.ChosenAmount | streamlit_app.py:239-243 | the amount before the child-mode step is never empty and never a zero form |
| Quantity.NormalizeKeepsFields | streamlit_app.py:238-251 | the name loses its quantity; the optional flag and the substitution are copied |
| Quantity.NormalizeAmountUsable | streamlit_app.py:236-252 | every normalised amount is present and non-empty, and outside child mode never a zero form |
| Quantity.NormalizeKeepsUsableAmount | streamlit_app.py:239-243 | an amount that needs no guess and that sanitising leaves alone is kept |
| Quantity.NormalizeSoySauceForFour | streamlit_app.py:236-252 | soy sauce "as needed" for four becomes one and a half tablespoons |
| Quantity.NormalizeAllAt | streamlit_app.py:236-252 | the i-th normalised ingredient is the i-th input ingredient rebuilt |
| Quantity.NormalizeIngredients | streamlit_app.py:236-252 | the loop returns the list rebuilt one ingredient at a time, in order |
| Tools.AppendNewSpec | streamlit_app.py:276-279 | appending only new tools keeps the old list as a prefix, adds exactly the given tools and never repeats one |
| Tools.ToolsAfterRulesSpec | streamlit_app.py:271-279 | a tool is chosen exactly when a firing rule lists it, and none is repeated |
| Tools.InferToolsSpec | streamlit_app.py:266-282 | the list is never empty and never repeats a tool; when a rule or a measuring word fires it holds exactly the tools of the firing rules and the measuring spoon; otherwise it is the default list |
| Tools.ToolsAfterRulesPrefix | streamlit_app.py:271-275 | rules apply in their listed order: the tools after j rules are a prefix of those after k rules for j <= k |
| Tools.InferToolsOrder | streamlit_app.py:266-282 | when a rule or measuring word fires, the rules' tools come first in rule order, and a measuring spoon no rule listed is appended last |
| Tools.InferToolsFromRecipe | streamlit_app.py:266-282 | the nested loops compute the inferred list |
| Quality.WarningsSpec | streamlit_app.py:290-305 | each of the five warnings is drawn exactly when its condition holds |
| Quality.WarningsDistinct | streamlit_app.py:290-305 | no warning is drawn twice, so there are at most five |
| Quality.QualityCheck | streamlit_app.py:290-305 | the method returns the warnings in order, and passes exactly when there are none |
| Quality.PassesMeans | streamlit_app.py:290-305 | a recipe passes exactly when it has at least three ingredients and three steps, a heat word, a seasoning and no "適量" |
| Quality.UmeFourWarnings | streamlit_app.py:290-305 | one ingredient without an amount and no steps draw four warnings; the missing amount shows as "None", not "適量" |
| Quality.Filter | streamlit_app.py:307-308 | the kept recipes are exactly the given ones that satisfy the test, no more of them, and none only when none satisfies it |
| Quality.FilterAppend | streamlit_app.py:307-308 | filtering a concatenation filters each part, so the order is kept |
| Quality.FilterIdempotent | streamlit_app.py:307-308 | filtering twice is filtering once |
| Quality.FirstKept | streamlit_app.py:307-308 | the first filtered recipe is the first one in the input that passes |
| Estimate.AmountToGramsOrSpoons | streamlit_app.py:352-365 | the unit is always one of grams, spoons or pieces (never empty) and the value is never negative |
| Estimate.NoDigitIsZeroGrams | streamlit_app.py:352-365 | an amount without a digit reads as 0 g |
| Estimate.FindFoodKey | streamlit_app.py:374-377 | the loop finds the first FOODS key contained in the name |
| Estimate.Factor | streamlit_app.py:381-405 | the scaling factor is never negative and is 0 for a zero amount |
| Estimate.FactorLinear | streamlit_app.py:381-405 | the factor is proportional to the amount: c times the amount gives c times the factor |
| Estimate.FactorMonotone | streamlit_app.py:381-405 | a larger amount never gives a smaller factor |
| Estimate.EstimateNutrition | streamlit_app.py:369-414 | the loop returns the per-serving totals of the contributions, with servings taken as at least one |
| Estimate.UnknownFoodAddsNothing | streamlit_app.py:376-379 | an ingredient with no FOODS key adds nothing |
| Estimate.ZeroGramsAddNothing | streamlit_app.py:381-410 | an amount read as 0 g adds nothing |
| Estimate.EstimateNonNegative | streamlit_app.py:369-414 | with FOODS every estimated figure is non-negative |
| Estimate.NutritionSumAppend | streamlit_app.py:371-410 | the totals of a concatenation are the sum of the parts' totals |
| Estimate.EstimateCostYen | streamlit_app.py:431-482 | the loop returns the summed cost rounded half to even |
| Estimate.UnknownFoodCost | streamlit_app.py:443-447 | a name with no key costs 30 yen per 100 g when in grams, and nothing otherwise |
| Estimate.PerTeaspoonCostsNothing | streamlit_app.py:449-477 | a food priced only per teaspoon falls through every branch and adds no cost |
| Estimate.SaltIsFree | streamlit_app.py:349 | salt costs nothing at any amount and price factor |
| Estimate.CostSumNonNegative | streamlit_app.py:431-482 | with a non-negative table and price factor the cost is never negative |
| Estimate.ZeroGramsOfSeasoningCostOneSpoon | streamlit_app.py:470-476 | a seasoning priced per tablespoon whose amount does not parse is charged one tablespoon |
| Estimate.ProfileKeysDistinct | streamlit_app.py:313-318 | no two nutrition profiles share a name, as in a dictionary |
| Estimate.ProfileFrom | streamlit_app.py:417 | the lookup returns the profile stored under exactly that name, and the first profile, "ふつう", for a name stored nowhere |
| Estimate.UnknownProfileIsNormal | streamlit_app.py:417 | an unknown profile name is graded as "ふつう" |
| Estimate.MarkSpec | streamlit_app.py:418-423 | ◎ exactly inside the range, ⚠ exactly above 115 % of the top, △ otherwise |
| Estimate.ScoreAgainstProfile | streamlit_app.py:416-428 | each of energy, protein and salt is marked against the named profile's range: ◎ exactly inside it, ⚠ exactly beyond 115 % of its top, △ below it or at most 15 % above it |
| Planner.ChooseRecipeSpec | streamlit_app.py:618-631 | the first passing recipe is chosen; failing that the first recipe; failing that the fallback recipe |
| Planner.MakeDay | streamlit_app.py:610-633 | the method returns the chosen recipe with its ingredients normalised and priced, with day index 0 |
| Planner.DayForSpec | streamlit_app.py:610-633 | a made day keeps the chosen recipe's ingredient count, and its cost is non-negative for a non-negative price factor |
| Week.TotalCostReplace | streamlit_app.py:666 | replacing one day changes the total by the difference of the two costs |
| Week.InsertByCostAdds | streamlit_app.py:654 | inserting a day adds exactly that day and its cost |
| Week.InsertByCostSorted | streamlit_app.py:654 | insertion keeps a dearest-first order |
| Week.SortByCostDesc | streamlit_app.py:654 | the sort keeps the length and the total |
| Week.SortByCostDescSpec | streamlit_app.py:654 | the sort is a permutation and puts the dearest days first |
| Week.SortByCostDescStable | streamlit_app.py:654 | the sort is stable: the days of each cost keep their relative order |
| Week.InitialIndices | streamlit_app.py:637-642 | the initial days carry exactly the indices 1..n |
| Week.InitialWeek | streamlit_app.py:637-642 | the first loop makes day i+1 from the i-th rotation hint on call i |
| Week.RoundPrefixSpec | streamlit_app.py:657-665 | after j positions of a round each holds the cheaper of the sorted day and its regeneration, and a change is reported exactly when one improved |
| Week.RoundOfSpec | streamlit_app.py:654-665 | a round sorts the week dearest first, replaces each of its first min(2, n) days by the cheap regeneration exactly when that is strictly cheaper, keeps the rest, reports a change exactly when a day improved, and uses one call per regenerated day |
| Week.RoundOfIndices | streamlit_app.py:654-665 | a round keeps the length and the day indices |
| Week.RoundOfNoDearer | streamlit_app.py:654-665 | a round makes no day dearer than the day of its index before the round |
| Week.RoundOfTotal | streamlit_app.py:654-666 | a round never raises the total, strictly lowers it when it reports a change, and without a change leaves the sorted week |
| Week.ReplanRound | streamlit_app.py:654-665 | the method computes the round `Week.RoundOf` |
| Week.ReplanOf | streamlit_app.py:652-670 | the re-planned week has the same length, its reported total is the sum of its costs, and each attempt makes at most two calls |
| Week.ReplanOfIndices | streamlit_app.py:652-670 | re-planning keeps the day indices |
| Week.ReplanOfNoDearer | streamlit_app.py:652-670 | re-planning makes no day dearer than the day of its index in the starting week |
| Week.ReplanOfCheaper | streamlit_app.py:652-670 | re-planning never raises the total |
| Week.Replan | streamlit_app.py:652-670 | the attempts loop, with its two early exits, computes `Week.ReplanOf` |
| Week.WeekPlanOfIndices | streamlit_app.py:637-670 | the planned week has n days carrying the indices 1..n |
| Week.WeekPlanOfCheaper | streamlit_app.py:637-678 | no planned day is dearer than the initial day of its index, the total is never above the initial total, and a week within budget is the initial week |
| Week.ReplaceStaysCheap | streamlit_app.py:662-665 | a strictly cheaper replacement with the same index keeps every day no dearer than initially |
| Planner.PlanWeek | streamlit_app.py:590-678 | the days are `Week.WeekPlanOf` for the rotation and max(0, n) days; the total is the sum of their costs; the extra result is that total exactly when it is over the budget; the summary is that of the planned days |
| Planner.WeeklyNutritionSummary | streamlit_app.py:680-689 | the loop returns the daily average over at least one day, graded against the profile |
| Planner.WeekSummaryNonNegative | streamlit_app.py:680-689 | the weekly average is never negative |
| Shopping.Read | streamlit_app.py:910-911 | every reading has a unit and a non-negative value, so the empty-unit skip never fires |
| Shopping.AggregateSpec | streamlit_app.py:905-927 | the keys are exactly the names read; each entry, in grams, is the sum of its name's amounts in grams; an entry keeps a non-gram unit only when all its name's amounts have that unit; a name whose amounts share one unit keeps it with the plain sum |
| Shopping.AddIngredients | streamlit_app.py:909-926 | the inner loop extends the aggregate by one recipe's ingredients |
| Shopping.AggregateShopping | streamlit_app.py:905-927 | the loops compute the aggregate of every ingredient of the week, day by day |
| Shopping.AllIngredientsSpec | streamlit_app.py:908-909 | the week's ingredients are exactly those of its recipes |
| Shopping.ShoppingNames | streamlit_app.py:905-927 | the list has an entry for exactly the ingredient names |
| Shopping.HalfSpoonsIsFormatG | streamlit_app.py:931-932 | the spoon rendering is the `:g` text of `round(x*2)/2`, at every size |
| Shopping.PrettySpoon | streamlit_app.py:929-932 | a spoon sum is shown as a whole number of half spoons within a quarter spoon of the sum |
| Shopping.PrettyGramsReadsBack | streamlit_app.py:929-930 | a weight is shown as whole grams, a multiple of the step, within 25.5 g of the sum, and reads back as that many grams |
| Shopping.PrettyWholePieces | streamlit_app.py:933-934 | a whole number of pieces is shown without a decimal point |
| Shopping.FirstCategory | streamlit_app.py:949-953 | the first category with a keyword in the name, and none exactly when no category matches |
| Shopping.CatOfSpec | streamlit_app.py:942-953 | the category is one of the four; each named category is chosen exactly when it matches and no earlier one does |
| Shopping.SaltedMackerelIsFish | streamlit_app.py:942-953 | the first match wins: 塩さば is fish although it also holds a seasoning word |

## Left out

- The Streamlit UI, the access-code lock, session state and the rendering of
  recipes: I/O outside the core.
- `generate_recipes` and the OpenAI client: an external call. The planner
  takes `make_day` as a function parameter, and `MakeDay` takes the
  generator as an oracle.
- Floating point: Python floats are modelled as exact reals, so binary
  rounding (for instance in `round(x, 1)` or `0.1 * 3`) is not modelled.
- `Text.FormatG`: `:g` keeps six significant digits. The model is exact for
  multiples of one half below 100000 and for whole numbers below a million,
  and from 100000 on it rounds half to even to a whole number as `:g` does.
  Other values below 100000 get at most six decimals, not six significant
  digits, and exponent notation (a million or more) is not modelled.
- `Text.FormatRepr`: `str(x)` keeps the decimals of a non-integral value at
  any size ("100000.5"), but they are shown with at most six decimals, not
  Python's shortest round-tripping digits.
- `Shopping.Pieces`: a whole piece count is rendered with `IntToString`, so
  counts of a million pieces or more are not shown in exponent form.
- `Shopping.PrettySpoon`: states the rendered text; that it reads back as
  the same unit and value is `Quantity.SpoonTextParses` and is not restated.
- `\d` is limited to ASCII and full-width digits, not every Unicode decimal
  digit; `lower()` is limited to ASCII letters.
- `plans.sort` is modelled as a stable insertion sort over a sequence (a
  function), not as Python's in-place sort.
- `FOODS` is passed as a table parameter to the estimators; the app's own
  table is `Estimate.FOODS`.
- The `"少々" in amt` branch of `estimate_cost_yen` adds zero and is left out.
- The `unit == ""` skip in `aggregate_shopping` cannot fire, since
  `amount_to_grams_or_spoons` never returns an empty unit (`Shopping.Read`).
- The grouping of the shopping list by category and its sorting for display
  (after line 953) are UI code.
- `FEATURES` flags other than `ENABLE_QUALITY_FILTER` (always on) and
  `WEEK_REPLAN_ATTEMPTS` (2) are UI or generator settings.
- Quantity.SplitQuantityFromNameSpec: does not promise that the returned
  name is free of quantities, because the code does not ensure it: a name
  that is only a quantity comes back whole (`Quantity.SplitBareGrams`, e.g.
  "200g"), and removing one match can create another, e.g. "a 小さじ 1g 2"
  loses " 1g" and becomes "a 小さじ 2", which itself holds a quantity. The
  leftmost-match property is stated through `Quantity.NoQtyIn` ("no match
  starts in [p, q)"); `Quantity.NoQtyInAll` turns the pointwise form into it.
- Quantity.GuessOilReadsBack and Quantity.GuessCondimentReadsBack state the
  spoon guesses only; the piece, protein and vegetable guesses are stated by
  `Quantity.GuessEggs`, `Quantity.RoundedGrams` and `Quantity.GuessUnlisted`.
