/** The rough nutrition and cost estimators and the grading of a nutrition
    estimate against a profile. Python floats are modelled as exact reals. */
module Estimate {
  import opened Wrappers
  import opened Text
  import opened Recipes
  import opened Quantity

  // ------------------------------------------------------------------
  // Tables
  // ------------------------------------------------------------------

  /** The five nutrition figures, in the order of the totals dict. */
  datatype Nutrition = Nutrition(kcal: real, protein: real, fat: real, carb: real, salt: real)

  type PositiveReal = r: real | r > 0.0 witness 1.0

  /** The one price entry a food carries (salt has only a per-teaspoon price). */
  datatype Price = PerPiece(yen: real, pieceGrams: PositiveReal) | Per100g(yen: real) | PerTbsp(yen: real) | PerTsp(yen: real)

  datatype Food = Food(n: Nutrition, price: Price)

  /** FOODS: nutrition per 100 g (per tablespoon for seasonings), and price. */
  const FOODS: seq<(string, Food)> := [
    ("鶏むね肉", Food(Nutrition(120.0, 23.0, 2.0, 0.0, 0.0), Per100g(68.0))),
    ("鶏もも肉", Food(Nutrition(200.0, 17.0, 14.0, 0.0, 0.0), Per100g(98.0))),
    ("豚肉", Food(Nutrition(242.0, 20.0, 19.0, 0.0, 0.0), Per100g(128.0))),
    ("牛肉", Food(Nutrition(250.0, 20.0, 19.0, 0.0, 0.0), Per100g(198.0))),
    ("ひき肉", Food(Nutrition(230.0, 19.0, 17.0, 0.0, 0.0), Per100g(118.0))),
    ("鮭", Food(Nutrition(200.0, 22.0, 12.0, 0.0, 0.0), Per100g(198.0))),
    ("さば", Food(Nutrition(240.0, 20.0, 19.0, 0.0, 0.0), Per100g(158.0))),
    ("木綿豆腐", Food(Nutrition(72.0, 7.0, 4.0, 2.0, 0.0), PerPiece(62.0, 300.0))),
    ("絹ごし豆腐", Food(Nutrition(56.0, 5.0, 3.0, 2.0, 0.0), PerPiece(62.0, 300.0))),
    ("卵", Food(Nutrition(150.0, 12.0, 10.0, 0.0, 0.0), PerPiece(25.0, 50.0))),
    ("キャベツ", Food(Nutrition(23.0, 1.0, 0.0, 5.0, 0.0), Per100g(25.0))),
    ("玉ねぎ", Food(Nutrition(37.0, 1.0, 0.0, 9.0, 0.0), PerPiece(40.0, 180.0))),
    ("にんじん", Food(Nutrition(37.0, 1.0, 0.0, 9.0, 0.0), Per100g(28.0))),
    ("じゃがいも", Food(Nutrition(76.0, 2.0, 0.0, 17.0, 0.0), Per100g(25.0))),
    ("なす", Food(Nutrition(22.0, 1.0, 0.0, 5.0, 0.0), Per100g(40.0))),
    ("もやし", Food(Nutrition(14.0, 2.0, 0.0, 3.0, 0.0), Per100g(20.0))),
    ("しょうゆ", Food(Nutrition(13.0, 1.4, 0.0, 1.2, 2.6), PerTbsp(10.0))),
    ("みりん", Food(Nutrition(43.0, 0.0, 0.0, 7.2, 0.0), PerTbsp(10.0))),
    ("酒", Food(Nutrition(11.0, 0.0, 0.0, 0.5, 0.0), PerTbsp(8.0))),
    ("砂糖", Food(Nutrition(35.0, 0.0, 0.0, 9.0, 0.0), PerTbsp(5.0))),
    ("味噌", Food(Nutrition(33.0, 2.0, 1.0, 4.0, 0.9), PerTbsp(15.0))),
    ("ごま油", Food(Nutrition(111.0, 0.0, 12.6, 0.0, 0.0), PerTbsp(18.0))),
    ("オリーブオイル", Food(Nutrition(111.0, 0.0, 12.6, 0.0, 0.0), PerTbsp(20.0))),
    ("塩", Food(Nutrition(0.0, 0.0, 0.0, 0.0, 6.0), PerTsp(2.0)))
  ]

  const SALT_INDEX: nat := 23

  /** Keys whose nutrition entry counts one tablespoon as one unit. */
  const TBSP_UNIT_KEYS: seq<string> := ["しょうゆ", "みりん", "酒", "味噌", "ごま油", "オリーブオイル", "塩"]
  /** Keys whose teaspoons are converted to tablespoons. */
  const TSP_AS_TBSP_KEYS: seq<string> := ["しょうゆ", "みりん", "酒", "味噌", "ごま油", "オリーブオイル"]

  predicate NonNegative(n: Nutrition)
  {
    n.kcal >= 0.0 && n.protein >= 0.0 && n.fat >= 0.0 && n.carb >= 0.0 && n.salt >= 0.0
  }

  predicate PriceNonNegative(p: Price)
  {
    p.yen >= 0.0
  }

  /** Every figure and price of a table is non-negative. */
  predicate TableNonNegative(foods: seq<(string, Food)>)
  {
    forall k :: 0 <= k < |foods| ==> NonNegative(foods[k].1.n) && PriceNonNegative(foods[k].1.price)
  }

  lemma FoodsNonNegative()
    ensures TableNonNegative(FOODS)
  {
  }

  // ------------------------------------------------------------------
  // amount_to_grams_or_spoons
  // ------------------------------------------------------------------

  /** amount_to_grams_or_spoons: grams first (`g` or `グラム` after a number),
      then 大さじ, 小さじ, 個, and 片 as half a piece; anything else is 0 g. */
  function AmountToGramsOrSpoons(amount: string): (r: (Unit, real))
    ensures r.0 != NoUnit && r.1 >= 0.0
  {
    if amount == [] then (Gram, 0.0)
    else
      var a := Canonical(amount);
      match SearchNumberWithUnit(a, ["g", "グラム"], 0)
      case Some(v) => (Gram, v)
      case None =>
      match SearchPrefixedNumber(a, "大さじ", 0)
      case Some(v) => (Tbsp, v)
      case None =>
      match SearchPrefixedNumber(a, "小さじ", 0)
      case Some(v) => (Tsp, v)
      case None =>
      match SearchNumberWithUnit(a, ["個"], 0)
      case Some(v) => (Piece, v)
      case None =>
      match SearchNumberWithUnit(a, ["片"], 0)
      case Some(v) => (Piece, v * 0.5)
      case None => (Gram, 0.0)
  }

  /** An amount without a decimal digit (after the full-width point is made ASCII,
      stripped and lower-cased) reads as 0 g, never as an empty unit. */
  lemma NoDigitIsZeroGrams(amount: string)
    requires forall k :: 0 <= k < |Canonical(amount)| ==> !IsDigit(Canonical(amount)[k])
    ensures AmountToGramsOrSpoons(amount) == (Gram, 0.0)
  {
    if amount != [] {
      var a := Canonical(amount);
      NoDigitNoNumber(a, "大さじ", ["g", "グラム"], 0);
      NoDigitNoNumber(a, "小さじ", ["個"], 0);
      NoDigitNoNumber(a, "大さじ", ["片"], 0);
    }
  }

  /** `ing.amount or ""`. */
  function AmountText(amount: Option<string>): string
  {
    match amount
    case Some(a) => a
    case None => ""
  }

  // ------------------------------------------------------------------
  // Looking a food up
  // ------------------------------------------------------------------

  /** The `for k in FOODS.keys(): if k in name: key = k; break` loop. */
  method FindFoodKey(name: string, foods: seq<(string, Food)>) returns (key: Option<nat>)
    ensures key == FirstKey(name, foods)
  {
    key := None;
    var k := 0;
    while k < |foods|
      invariant 0 <= k <= |foods|
      invariant forall j :: 0 <= j < k ==> !Contains(name, foods[j].0)
    {
      if Contains(name, foods[k].0) {
        key := Some(k);
        return;
      }
      k := k + 1;
    }
  }

  // ------------------------------------------------------------------
  // estimate_nutrition
  // ------------------------------------------------------------------

  const ZERO: Nutrition := Nutrition(0.0, 0.0, 0.0, 0.0, 0.0)

  function Add(a: Nutrition, b: Nutrition): Nutrition
  {
    Nutrition(a.kcal + b.kcal, a.protein + b.protein, a.fat + b.fat, a.carb + b.carb, a.salt + b.salt)
  }

  function Scale(n: Nutrition, f: real): Nutrition
  {
    Nutrition(n.kcal * f, n.protein * f, n.fat * f, n.carb * f, n.salt * f)
  }

  /** Grams of one piece in the nutrition estimate: egg 50 g, garlic 5 g, else 30 g. */
  function PieceGrams(name: string): real
  {
    if Contains(name, "卵") then 50.0 else if Contains(name, "にんにく") then 5.0 else 30.0
  }

  /** How many table units the parsed amount is for the food with the given key:
      100 g units for grams, 15 g per tablespoon and 5 g per teaspoon except
      for seasonings counted by the spoon. */
  function Factor(name: string, key: string, u: Unit, v: real): (f: real)
    requires v >= 0.0
    ensures f >= 0.0
    ensures v == 0.0 ==> f == 0.0
  {
    match u
    case Gram => v / 100.0
    case Tbsp => if key in TBSP_UNIT_KEYS then v else v * 15.0 / 100.0
    case Tsp =>
      if key == "塩" then v
      else if key in TSP_AS_TBSP_KEYS then v / TSP_IN_TBSP
      else v * 5.0 / 100.0
    case Piece => PieceGrams(name) * v / 100.0
    case NoUnit => 0.0
  }

  /** The factor is proportional to the amount: c times the amount is c
      times as many table units, so a larger amount never counts for less. */
  lemma FactorLinear(name: string, key: string, u: Unit, v: real, c: real)
    requires v >= 0.0 && c >= 0.0
    ensures Factor(name, key, u, c * v) == c * Factor(name, key, u, v)
  {
    match u
    case Gram =>
    case Tbsp =>
    case Tsp =>
    case Piece =>
      assert PieceGrams(name) * (c * v) == c * (PieceGrams(name) * v);
    case NoUnit =>
  }

  lemma FactorMonotone(name: string, key: string, u: Unit, v: real, w: real)
    requires 0.0 <= v <= w
    ensures Factor(name, key, u, v) <= Factor(name, key, u, w)
  {
  }

  /** What one ingredient adds to the totals: nothing without a FOODS key. */
  function Contribution(foods: seq<(string, Food)>, ing: Ingredient): Nutrition
  {
    var (u, v) := AmountToGramsOrSpoons(AmountText(ing.amount));
    match FirstKey(ing.name, foods)
    case None => ZERO
    case Some(k) => Scale(foods[k].1.n, Factor(ing.name, foods[k].0, u, v))
  }

  /** The summed contributions of the ingredients, in order. */
  function NutritionSum(foods: seq<(string, Food)>, ings: seq<Ingredient>): Nutrition
  {
    if ings == [] then ZERO
    else Add(NutritionSum(foods, ings[..|ings| - 1]), Contribution(foods, ings[|ings| - 1]))
  }

  /** Each total divided by the servings and rounded to one decimal. */
  function PerServing(t: Nutrition, serv: int): Nutrition
    requires serv >= 1
  {
    var s := serv as real;
    Nutrition(Round1(t.kcal / s), Round1(t.protein / s), Round1(t.fat / s), Round1(t.carb / s), Round1(t.salt / s))
  }

  function Servings(rec: Recipe): (s: int)
    ensures s >= 1 && (rec.servings >= 1 ==> s == rec.servings)
  {
    if rec.servings < 1 then 1 else rec.servings
  }

  /** The body of the loop of estimate_nutrition for one ingredient: what it
      adds to the totals (nothing when the name has no key). */
  method IngredientNutrition(foods: seq<(string, Food)>, ing: Ingredient) returns (c: Nutrition)
    ensures c == Contribution(foods, ing)
  {
    var (u, v) := AmountToGramsOrSpoons(AmountText(ing.amount));
    var key := FindFoodKey(ing.name, foods);
    c := ZERO;
    if key.Some? {
      var k := key.value;
      var factor := Factor(ing.name, foods[k].0, u, v);
      c := Scale(foods[k].1.n, factor);
    }
  }

  /** estimate_nutrition: the per-serving totals of the contributions, servings taken as at least one. */
  method EstimateNutrition(rec: Recipe, foods: seq<(string, Food)>) returns (total: Nutrition)
    ensures total == PerServing(NutritionSum(foods, rec.ingredients), Servings(rec))
  {
    var sum := SumNutrition(foods, rec.ingredients);
    total := PerServing(sum, Servings(rec));
  }

  /** The loop of estimate_nutrition: the contributions added up in order. */
  method SumNutrition(foods: seq<(string, Food)>, ings: seq<Ingredient>) returns (total: Nutrition)
    ensures total == NutritionSum(foods, ings)
  {
    total := ZERO;
    for i := 0 to |ings|
      invariant total == NutritionSum(foods, ings[..i])
    {
      var c := IngredientNutrition(foods, ings[i]);
      NutritionSumSnoc(foods, ings, i);
      total := Add(total, c);
    }
    assert ings[..|ings|] == ings;
  }

  /** Summing one more ingredient adds its contribution. */
  lemma NutritionSumSnoc(foods: seq<(string, Food)>, ings: seq<Ingredient>, i: nat)
    requires i < |ings|
    ensures NutritionSum(foods, ings[..i + 1]) == Add(NutritionSum(foods, ings[..i]), Contribution(foods, ings[i]))
  {
    assert ings[..i + 1][..i] == ings[..i];
  }

  /** An ingredient whose name holds no key of the table adds nothing. */
  lemma UnknownFoodAddsNothing(foods: seq<(string, Food)>, ing: Ingredient)
    requires forall k :: 0 <= k < |foods| ==> !Contains(ing.name, foods[k].0)
    ensures Contribution(foods, ing) == ZERO
  {
  }

  /** An amount that parses as 0 g adds nothing, whatever the food. */
  lemma ZeroGramsAddNothing(foods: seq<(string, Food)>, ing: Ingredient)
    requires AmountToGramsOrSpoons(AmountText(ing.amount)) == (Gram, 0.0)
    ensures Contribution(foods, ing) == ZERO
  {
    match FirstKey(ing.name, foods)
    case None =>
    case Some(k) =>
      ScaleZero(foods[k].1.n);
  }

  lemma ScaleZero(n: Nutrition)
    ensures Scale(n, 0.0) == ZERO
  {
  }

  lemma ScaleNonNegative(n: Nutrition, f: real)
    requires NonNegative(n) && f >= 0.0
    ensures NonNegative(Scale(n, f))
  {
    ProductNonNegative(n.kcal, f);
    ProductNonNegative(n.protein, f);
    ProductNonNegative(n.fat, f);
    ProductNonNegative(n.carb, f);
    ProductNonNegative(n.salt, f);
  }

  lemma ProductNonNegative(x: real, y: real)
    requires x >= 0.0 && y >= 0.0
    ensures x * y >= 0.0
  {
  }

  /** Contributions from a non-negative table are never negative. */
  lemma ContributionNonNegative(foods: seq<(string, Food)>, ing: Ingredient)
    requires TableNonNegative(foods)
    ensures NonNegative(Contribution(foods, ing))
  {
    var (u, v) := AmountToGramsOrSpoons(AmountText(ing.amount));
    match FirstKey(ing.name, foods)
    case None =>
    case Some(k) =>
      ScaleNonNegative(foods[k].1.n, Factor(ing.name, foods[k].0, u, v));
  }

  /** The totals from a non-negative table are never negative. */
  lemma {:induction false} NutritionSumNonNegative(foods: seq<(string, Food)>, ings: seq<Ingredient>)
    requires TableNonNegative(foods)
    ensures NonNegative(NutritionSum(foods, ings))
  {
    if ings != [] {
      NutritionSumNonNegative(foods, ings[..|ings| - 1]);
      ContributionNonNegative(foods, ings[|ings| - 1]);
    }
  }

  /** Dividing non-negative totals by the servings and rounding keeps them non-negative. */
  lemma PerServingNonNegative(t: Nutrition, serv: int)
    requires serv >= 1 && NonNegative(t)
    ensures NonNegative(PerServing(t, serv))
  {
  }

  /** With FOODS the estimate of any recipe is non-negative. */
  lemma EstimateNonNegative(rec: Recipe)
    ensures NonNegative(PerServing(NutritionSum(FOODS, rec.ingredients), Servings(rec)))
  {
    FoodsNonNegative();
    NutritionSumNonNegative(FOODS, rec.ingredients);
    PerServingNonNegative(NutritionSum(FOODS, rec.ingredients), Servings(rec));
  }

  /** Summing a concatenation sums each part. */
  lemma {:induction false} NutritionSumAppend(foods: seq<(string, Food)>, a: seq<Ingredient>, b: seq<Ingredient>)
    ensures NutritionSum(foods, a + b) == Add(NutritionSum(foods, a), NutritionSum(foods, b))
    decreases |b|
  {
    if b == [] {
      assert a + b == a;
    } else {
      var b' := b[..|b| - 1];
      assert (a + b)[..|a + b| - 1] == a + b';
      assert (a + b)[|a + b| - 1] == b[|b| - 1];
      NutritionSumAppend(foods, a, b');
    }
  }

  // ------------------------------------------------------------------
  // estimate_cost_yen
  // ------------------------------------------------------------------

  /** Yen for a name with no key: 30 yen per 100 g when given in grams, else nothing. */
  function UnknownCost(u: Unit, v: real, priceFactor: real): real
  {
    if u == Gram then (v / 100.0) * 30.0 * priceFactor else 0.0
  }

  /** Yen for a known food: by the piece (grams converted to pieces, other
      units one piece), by 100 g (15 g a tablespoon, 5 g a teaspoon, 50 g a
      piece), or by the tablespoon (a third for a teaspoon, one otherwise).
      A per-teaspoon price is handled by no branch and adds nothing. */
  function FoodCost(price: Price, u: Unit, v: real, priceFactor: real): real
  {
    match price
    case PerPiece(yen, pieceGrams) =>
      if u == Piece then yen * v * priceFactor
      else if u == Gram then yen * (v / pieceGrams) * priceFactor
      else yen * priceFactor
    case Per100g(yen) =>
      if u == Gram then (v / 100.0) * yen * priceFactor
      else if u in {Tbsp, Tsp, Piece} then
        var grams := if u == Tbsp then 15.0 * v else if u == Tsp then 5.0 * v else 50.0 * v;
        (grams / 100.0) * yen * priceFactor
      else yen * priceFactor
    case PerTbsp(yen) =>
      if u == Tbsp then yen * v * priceFactor
      else if u == Tsp then yen * (v / TSP_IN_TBSP) * priceFactor
      else yen * priceFactor
    case PerTsp(_) => 0.0
  }

  /** Yen for one ingredient, priced by its first key in the table. */
  function CostOf(foods: seq<(string, Food)>, ing: Ingredient, priceFactor: real): real
  {
    var (u, v) := AmountToGramsOrSpoons(AmountText(ing.amount));
    ReadingCost(foods, ing.name, u, v, priceFactor)
  }

  /** Yen for a name with a parsed amount, priced by its first key in the table. */
  function ReadingCost(foods: seq<(string, Food)>, name: string, u: Unit, v: real, priceFactor: real): real
  {
    match FirstKey(name, foods)
    case None => UnknownCost(u, v, priceFactor)
    case Some(k) => FoodCost(foods[k].1.price, u, v, priceFactor)
  }

  /** The summed cost of the ingredients, in order. */
  function CostSum(foods: seq<(string, Food)>, ings: seq<Ingredient>, priceFactor: real): real
  {
    if ings == [] then 0.0
    else CostSum(foods, ings[..|ings| - 1], priceFactor) + CostOf(foods, ings[|ings| - 1], priceFactor)
  }

  /** The body of the loop of estimate_cost_yen for one ingredient: its yen. */
  method IngredientCost(foods: seq<(string, Food)>, ing: Ingredient, priceFactor: real) returns (c: real)
    ensures c == CostOf(foods, ing, priceFactor)
  {
    var (u, v) := AmountToGramsOrSpoons(AmountText(ing.amount));
    var key := FindFoodKey(ing.name, foods);
    if key.None? {
      c := UnknownCost(u, v, priceFactor);
    } else {
      c := FoodCost(foods[key.value].1.price, u, v, priceFactor);
    }
  }

  /** estimate_cost_yen: the summed cost, rounded half to even. */
  method EstimateCostYen(rec: Recipe, priceFactor: real, foods: seq<(string, Food)>) returns (yen: int)
    ensures yen == RoundHalfEven(CostSum(foods, rec.ingredients, priceFactor))
  {
    var ings := rec.ingredients;
    var total := 0.0;
    for i := 0 to |ings|
      invariant total == CostSum(foods, ings[..i], priceFactor)
    {
      var c := IngredientCost(foods, ings[i], priceFactor);
      assert ings[..i + 1][..i] == ings[..i];
      total := total + c;
    }
    assert ings[..|ings|] == ings;
    yen := RoundHalfEven(total);
  }

  /** A name with no key of the table is priced at 30 yen per 100 g, and only when in grams. */
  lemma UnknownFoodCost(foods: seq<(string, Food)>, ing: Ingredient, priceFactor: real)
    requires forall k :: 0 <= k < |foods| ==> !Contains(ing.name, foods[k].0)
    ensures var (u, v) := AmountToGramsOrSpoons(AmountText(ing.amount));
      CostOf(foods, ing, priceFactor) == if u == Gram then (v / 100.0) * 30.0 * priceFactor else 0.0
  {
  }

  /** An ingredient whose first key carries only a per-teaspoon price never adds cost. */
  lemma PerTeaspoonCostsNothing(foods: seq<(string, Food)>, ing: Ingredient, priceFactor: real, k: nat)
    requires FirstKey(ing.name, foods) == Some(k) && foods[k].1.price.PerTsp?
    ensures CostOf(foods, ing, priceFactor) == 0.0
  {
  }

  /** Salt is the FOODS entry with only a per-teaspoon price. */
  lemma SaltOnlyPerTeaspoon()
    ensures FOODS[SALT_INDEX].0 == "塩" && FOODS[SALT_INDEX].1.price.PerTsp?
  {
  }

  /** "塩" contains no earlier FOODS key, so salt is its first key. */
  lemma SaltIsFirstKey()
    ensures FirstKey("塩", FOODS) == Some(SALT_INDEX)
  {
    var name := "塩";
    var keys := Keys(FOODS[..SALT_INDEX]);
    NoneOccur(name, keys, seq(SALT_INDEX, _ => 0));
    assert forall j :: 0 <= j < SALT_INDEX ==> FOODS[j].0 == keys[j];
    assert Contains(name, FOODS[SALT_INDEX].0);
  }

  /** "塩" costs nothing at any amount and any price factor. */
  lemma SaltIsFree(amount: Option<string>, priceFactor: real)
    ensures CostOf(FOODS, Ingredient("塩", amount, false, None), priceFactor) == 0.0
  {
    SaltIsFirstKey();
    SaltOnlyPerTeaspoon();
    PerTeaspoonCostsNothing(FOODS, Ingredient("塩", amount, false, None), priceFactor, SALT_INDEX);
  }

  /** Non-negative prices, amounts and price factor give a non-negative cost. */
  lemma FoodCostNonNegative(price: Price, u: Unit, v: real, priceFactor: real)
    requires PriceNonNegative(price) && v >= 0.0 && priceFactor >= 0.0
    ensures FoodCost(price, u, v, priceFactor) >= 0.0
  {
    match price
    case PerPiece(yen, pieceGrams) =>
      ProductNonNegative(yen, v);
      ProductNonNegative(yen * v, priceFactor);
      ProductNonNegative(yen, v / pieceGrams);
      ProductNonNegative(yen * (v / pieceGrams), priceFactor);
      ProductNonNegative(yen, priceFactor);
    case Per100g(yen) =>
      ProductNonNegative(v / 100.0, yen);
      ProductNonNegative(v / 100.0 * yen, priceFactor);
      var grams := if u == Tbsp then 15.0 * v else if u == Tsp then 5.0 * v else 50.0 * v;
      ProductNonNegative(grams / 100.0, yen);
      ProductNonNegative(grams / 100.0 * yen, priceFactor);
      ProductNonNegative(yen, priceFactor);
    case PerTbsp(yen) =>
      ProductNonNegative(yen, v);
      ProductNonNegative(yen * v, priceFactor);
      ProductNonNegative(yen, v / TSP_IN_TBSP);
      ProductNonNegative(yen * (v / TSP_IN_TBSP), priceFactor);
      ProductNonNegative(yen, priceFactor);
    case PerTsp(_) =>
  }

  /** With a non-negative table and price factor no ingredient costs less than nothing. */
  lemma CostOfNonNegative(foods: seq<(string, Food)>, ing: Ingredient, priceFactor: real)
    requires TableNonNegative(foods) && priceFactor >= 0.0
    ensures CostOf(foods, ing, priceFactor) >= 0.0
  {
    var uv := AmountToGramsOrSpoons(AmountText(ing.amount));
    ReadingCostNonNegative(foods, ing.name, uv.0, uv.1, priceFactor);
  }

  lemma ReadingCostNonNegative(foods: seq<(string, Food)>, name: string, u: Unit, v: real, priceFactor: real)
    requires TableNonNegative(foods) && v >= 0.0 && priceFactor >= 0.0
    ensures ReadingCost(foods, name, u, v, priceFactor) >= 0.0
  {
    match FirstKey(name, foods)
    case None =>
      ProductNonNegative(v / 100.0 * 30.0, priceFactor);
    case Some(k) =>
      FoodCostNonNegative(foods[k].1.price, u, v, priceFactor);
  }

  /** With a non-negative table and price factor the cost estimate is never negative. */
  lemma {:induction false} CostSumNonNegative(foods: seq<(string, Food)>, ings: seq<Ingredient>, priceFactor: real)
    requires TableNonNegative(foods) && priceFactor >= 0.0
    ensures CostSum(foods, ings, priceFactor) >= 0.0
    ensures RoundHalfEven(CostSum(foods, ings, priceFactor)) >= 0
  {
    if ings != [] {
      CostSumNonNegative(foods, ings[..|ings| - 1], priceFactor);
      CostOfNonNegative(foods, ings[|ings| - 1], priceFactor);
    }
  }

  /** A food priced by the tablespoon whose amount reads as 0 g is charged one
      tablespoon: the parser's fallback reaches the last branch. */
  lemma ZeroGramsOfSeasoningCostOneSpoon(foods: seq<(string, Food)>, ing: Ingredient, priceFactor: real, k: nat)
    requires FirstKey(ing.name, foods) == Some(k) && foods[k].1.price.PerTbsp?
    requires AmountToGramsOrSpoons(AmountText(ing.amount)) == (Gram, 0.0)
    ensures CostOf(foods, ing, priceFactor) == foods[k].1.price.yen * priceFactor
  {
  }

  // ------------------------------------------------------------------
  // score_against_profile
  // ------------------------------------------------------------------

  /** A (low, high) range for each graded figure. */
  datatype Profile = Profile(kcal: (real, real), protein: (real, real), salt: (real, real))

  const NUTRI_PROFILES: seq<(string, Profile)> := [
    ("ふつう", Profile((500.0, 800.0), (20.0, 35.0), (0.0, 2.5))),
    ("ダイエット", Profile((350.0, 600.0), (25.0, 40.0), (0.0, 2.0))),
    ("がっつり", Profile((700.0, 1000.0), (35.0, 55.0), (0.0, 3.0))),
    ("減塩", Profile((500.0, 800.0), (20.0, 35.0), (0.0, 2.0)))
  ]

  /** No two profiles share a name. */
  lemma ProfileKeysDistinct()
    ensures forall j, k :: 0 <= j < k < |NUTRI_PROFILES| ==> NUTRI_PROFILES[j].0 != NUTRI_PROFILES[k].0
  {
    forall j, k | 0 <= j < k < |NUTRI_PROFILES| ensures NUTRI_PROFILES[j].0 != NUTRI_PROFILES[k].0 {
      assert NUTRI_PROFILES[j].0[0] != NUTRI_PROFILES[k].0[0];
    }
  }

  /** NUTRI_PROFILES.get(name, NUTRI_PROFILES["ふつう"]), looking from
      position i: the profile stored under the name, and the first profile,
      "ふつう", for a name stored nowhere. */
  function ProfileFrom(name: string, i: nat): (p: Profile)
    requires i <= |NUTRI_PROFILES|
    ensures forall j :: i <= j < |NUTRI_PROFILES| && NUTRI_PROFILES[j].0 == name ==> p == NUTRI_PROFILES[j].1
    ensures (forall j :: i <= j < |NUTRI_PROFILES| ==> NUTRI_PROFILES[j].0 != name) ==> p == NUTRI_PROFILES[0].1
    decreases |NUTRI_PROFILES| - i
  {
    ProfileKeysDistinct();
    if i == |NUTRI_PROFILES| then NUTRI_PROFILES[0].1
    else if NUTRI_PROFILES[i].0 == name then NUTRI_PROFILES[i].1
    else ProfileFrom(name, i + 1)
  }

  function ProfileNamed(name: string): Profile
  {
    ProfileFrom(name, 0)
  }

  const GOOD: string := "◎"
  const FAIR: string := "△"
  const OVER: string := "⚠"

  /** mark: △ well below the range, ◎ inside it, △ up to 15 % above it, else ⚠. */
  function Mark(v: real, lo: real, hi: real): string
  {
    if v < lo * 0.9 then FAIR
    else if lo <= v <= hi then GOOD
    else if v <= hi * 1.15 then FAIR
    else OVER
  }

  /** For a sensible range the mark is ◎ exactly inside it (both bounds
      included), ⚠ exactly beyond 115 % of the top, and △ everywhere else, in
      particular anywhere below the range. */
  lemma MarkSpec(v: real, lo: real, hi: real)
    requires 0.0 <= lo <= hi
    ensures Mark(v, lo, hi) == GOOD <==> lo <= v <= hi
    ensures Mark(v, lo, hi) == OVER <==> v > hi * 1.15
    ensures Mark(v, lo, hi) == FAIR <==> v < lo || (hi < v <= hi * 1.15)
  {
    assert GOOD[0] != FAIR[0] && GOOD[0] != OVER[0] && FAIR[0] != OVER[0];
  }

  datatype Marks = Marks(kcal: string, protein: string, salt: string)

  /** The mark a graded figure gets: ◎ exactly inside the range, ⚠ exactly
      beyond 115 % of its top, △ below the range or less than 15 % above it. */
  predicate GradedAs(mark: string, v: real, range: (real, real))
  {
    && (mark == GOOD <==> range.0 <= v <= range.1)
    && (mark == OVER <==> v > range.1 * 1.15)
    && (mark == FAIR <==> v < range.0 || (range.1 < v <= range.1 * 1.15))
  }

  /** score_against_profile: energy, protein and salt each graded against the
      profile of that name ("ふつう" for an unknown name). */
  function ScoreAgainstProfile(n: Nutrition, profileName: string): (m: Marks)
    ensures var p := ProfileNamed(profileName);
      && GradedAs(m.kcal, n.kcal, p.kcal)
      && GradedAs(m.protein, n.protein, p.protein)
      && GradedAs(m.salt, n.salt, p.salt)
  {
    var p := ProfileNamed(profileName);
    ProfilesSensible(profileName);
    MarkSpec(n.kcal, p.kcal.0, p.kcal.1);
    MarkSpec(n.protein, p.protein.0, p.protein.1);
    MarkSpec(n.salt, p.salt.0, p.salt.1);
    Marks(Mark(n.kcal, p.kcal.0, p.kcal.1), Mark(n.protein, p.protein.0, p.protein.1), Mark(n.salt, p.salt.0, p.salt.1))
  }

  /** An unknown profile name is graded as "ふつう". */
  lemma UnknownProfileIsNormal(n: Nutrition, profileName: string)
    requires profileName !in Keys(NUTRI_PROFILES)
    ensures ScoreAgainstProfile(n, profileName) == ScoreAgainstProfile(n, "ふつう")
  {
    forall j | 0 <= j < |NUTRI_PROFILES| ensures NUTRI_PROFILES[j].0 != profileName {
      assert Keys(NUTRI_PROFILES)[j] == NUTRI_PROFILES[j].0;
    }
  }

  /** Every profile range is sensible, so MarkSpec applies to every grade. */
  lemma ProfilesSensible(name: string)
    ensures var p := ProfileNamed(name);
      0.0 <= p.kcal.0 <= p.kcal.1 && 0.0 <= p.protein.0 <= p.protein.1 && 0.0 <= p.salt.0 <= p.salt.1
  {
  }
}
