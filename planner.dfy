/** make_day, plan_week and weekly_nutrition_summary: a day's recipe chosen
    from the generator's answers, normalised and priced; the week built and
    re-planned by the Week module around such a day maker; and the weekly
    nutrition average. The recipe generator (a remote language model) is an
    oracle. */
module Planner {
  import opened Wrappers
  import opened Text
  import opened Recipes
  import opened Quantity
  import opened Quality
  import opened Estimate
  import opened Week

  /** The plan_week arguments the planner itself reads; theme, genre, keywords
      and avoided words only reach the generator, which is given already bound
      to them. */
  datatype PlanConfig = PlanConfig(
    servings: int,
    maxMinutes: int,
    priceFactor: real,
    childMode: bool,
    profileName: string,
    preferCheap: bool)

  /** The recipe source: for a protein hint, the cheap flag and the number of
      the call (its answers may differ from call to call), a list of recipes. */
  type Generator = (string, bool, nat) -> seq<Recipe>

  // ------------------------------------------------------------------
  // make_day
  // ------------------------------------------------------------------

  /** The minimal recipe make_day falls back to when the generator gives none. */
  function FallbackRecipe(hint: string, cfg: PlanConfig): Recipe
  {
    var protein := if hint == [] then "鶏むね肉" else hint;
    Recipe(protein + "の炒めもの", cfg.servings, Some(if 20 <= cfg.maxMinutes then 20 else cfg.maxMinutes), Some("かんたん"),
      [Ingredient(protein, None, false, None), Ingredient("キャベツ", None, false, None)],
      [Step("材料を切って炒め、調味する（中火）")], None)
  }

  /** The first recipe that passes the quality check, else the first recipe, else the fallback. */
  function ChooseRecipe(recs: seq<Recipe>, hint: string, cfg: PlanConfig): Recipe
  {
    var passed := FilterPassed(recs);
    if passed != [] then passed[0] else if recs != [] then recs[0] else FallbackRecipe(hint, cfg)
  }

  /** The choice prefers passing recipes, keeps the generator's order, and
      falls back only when there is nothing to choose from. */
  lemma {:induction false} ChooseRecipeSpec(recs: seq<Recipe>, hint: string, cfg: PlanConfig)
    ensures (exists r :: r in recs && Passes(r)) ==>
      exists i :: 0 <= i < |recs| && ChooseRecipe(recs, hint, cfg) == recs[i] && Passes(recs[i])
        && forall j :: 0 <= j < i ==> !Passes(recs[j])
    ensures (forall r :: r in recs ==> !Passes(r)) && recs != [] ==> ChooseRecipe(recs, hint, cfg) == recs[0]
    ensures recs == [] ==> ChooseRecipe(recs, hint, cfg) == FallbackRecipe(hint, cfg)
  {
    if exists r :: r in recs && Passes(r) {
      var i := FirstKept(recs, Passes);
    }
  }

  function ChildFactor(childMode: bool): real
  {
    if childMode then 0.8 else 1.0
  }

  /** The day make_day returns: the chosen recipe with its ingredients
      normalised, priced by the cost estimate, with day index 0. */
  function DayFor(gen: Generator, cfg: PlanConfig, hint: string, cheap: bool, call: nat): DayPlan
  {
    var chosen := ChooseRecipe(gen(hint, cheap, call), hint, cfg);
    var fixed := chosen.(ingredients := NormalizeAll(chosen.ingredients, chosen.servings, cfg.childMode, ChildFactor(cfg.childMode)));
    DayPlan(0, fixed, RoundHalfEven(CostSum(FOODS, fixed.ingredients, cfg.priceFactor)))
  }

  /** make_day. */
  method MakeDay(gen: Generator, cfg: PlanConfig, hint: string, cheap: bool, call: nat) returns (dp: DayPlan)
    ensures dp == DayFor(gen, cfg, hint, cheap, call)
  {
    var recs := gen(hint, cheap, call);
    var chosen := ChooseRecipe(recs, hint, cfg);
    var fixed := NormalizeIngredients(chosen.ingredients, chosen.servings, cfg.childMode, ChildFactor(cfg.childMode));
    chosen := chosen.(ingredients := fixed);
    var cost := EstimateCostYen(chosen, cfg.priceFactor, FOODS);
    dp := DayPlan(0, chosen, cost);
  }

  /** A made day keeps every ingredient of the chosen recipe, one for one, and
      with a non-negative price factor its cost is non-negative. */
  lemma DayForSpec(gen: Generator, cfg: PlanConfig, hint: string, cheap: bool, call: nat)
    ensures var chosen := ChooseRecipe(gen(hint, cheap, call), hint, cfg);
      |DayFor(gen, cfg, hint, cheap, call).recipe.ingredients| == |chosen.ingredients|
    ensures cfg.priceFactor >= 0.0 ==> DayFor(gen, cfg, hint, cheap, call).estCost >= 0
  {
    var chosen := ChooseRecipe(gen(hint, cheap, call), hint, cfg);
    var fixed := NormalizeAll(chosen.ingredients, chosen.servings, cfg.childMode, ChildFactor(cfg.childMode));
    if cfg.priceFactor >= 0.0 {
      FoodsNonNegative();
      CostSumNonNegative(FOODS, fixed, cfg.priceFactor);
    }
  }

  // ------------------------------------------------------------------
  // plan_week
  // ------------------------------------------------------------------

  function Rotation(cfg: PlanConfig): seq<string>
  {
    if cfg.preferCheap then PROTEIN_ROTATION_CHEAP else PROTEIN_ROTATION_DEFAULT
  }

  /** The nutrition estimate of one day's recipe. */
  function DayNutrition(rec: Recipe): Nutrition
  {
    PerServing(NutritionSum(FOODS, rec.ingredients), Servings(rec))
  }

  /** The summed daily estimates over the plans. */
  function WeekTotal(plans: seq<DayPlan>): Nutrition
  {
    if plans == [] then ZERO else Add(WeekTotal(plans[..|plans| - 1]), DayNutrition(plans[|plans| - 1].recipe))
  }

  datatype WeekSummary = WeekSummary(avg: Nutrition, score: Marks)

  /** The summary: the daily average (divided by at least one day), graded against the profile. */
  function WeekSummaryOf(plans: seq<DayPlan>, profileName: string): WeekSummary
  {
    var days := if |plans| < 1 then 1 else |plans|;
    var avg := PerServing(WeekTotal(plans), days);
    WeekSummary(avg, ScoreAgainstProfile(avg, profileName))
  }

  /** weekly_nutrition_summary. */
  method WeeklyNutritionSummary(plans: seq<DayPlan>, profileName: string) returns (summary: WeekSummary)
    ensures summary == WeekSummaryOf(plans, profileName)
  {
    var tot := ZERO;
    var days := if |plans| < 1 then 1 else |plans|;
    for i := 0 to |plans|
      invariant tot == WeekTotal(plans[..i])
    {
      assert plans[..i + 1][..i] == plans[..i];
      var nutri := EstimateNutrition(plans[i].recipe, FOODS);
      tot := Add(tot, nutri);
    }
    assert plans[..|plans|] == plans;
    var avg := PerServing(tot, days);
    summary := WeekSummary(avg, ScoreAgainstProfile(avg, profileName));
  }

  /** The weekly average is never negative. */
  lemma {:induction false} WeekTotalNonNegative(plans: seq<DayPlan>)
    ensures NonNegative(WeekTotal(plans))
  {
    if plans != [] {
      WeekTotalNonNegative(plans[..|plans| - 1]);
      EstimateNonNegative(plans[|plans| - 1].recipe);
    }
  }

  lemma WeekSummaryNonNegative(plans: seq<DayPlan>, profileName: string)
    ensures NonNegative(WeekSummaryOf(plans, profileName).avg)
  {
    WeekTotalNonNegative(plans);
    PerServingNonNegative(WeekTotal(plans), if |plans| < 1 then 1 else |plans|);
  }

  /** plan_week: the planned week, its total (the sum of its costs), the
      total again exactly when it is over the budget, and the weekly nutrition
      summary. A negative number of days plans none. */
  method PlanWeek(numDays: int, budget: int, cfg: PlanConfig, makeDay: DayMaker)
    returns (plans: seq<DayPlan>, total: int, feasible: Option<int>, summary: WeekSummary)
    ensures plans == WeekPlanOf(makeDay, Rotation(cfg), if numDays < 0 then 0 else numDays, budget)
    ensures total == TotalCost(plans)
    ensures feasible == if total <= budget then None else Some(total)
    ensures summary == WeekSummaryOf(plans, cfg.profileName)
  {
    var n: nat := if numDays < 0 then 0 else numDays;
    plans := InitialWeek(makeDay, Rotation(cfg), n);
    total := TotalCost(plans);
    if total <= budget {
      feasible := None;
    } else {
      var next;
      plans, total, next := Replan(makeDay, plans, budget, n);
      feasible := if total <= budget then None else Some(total);
    }
    summary := WeeklyNutritionSummary(plans, cfg.profileName);
  }
}
