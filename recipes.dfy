/** The records the application passes between its stages: the Ingredient,
    Step, Recipe and DayPlan models. A candidate set (RecipeSet) is a plain
    sequence of recipes. */
module Recipes {
  import opened Wrappers

  datatype Ingredient = Ingredient(
    name: string,
    amount: Option<string>,
    isOptional: bool,
    substitution: Option<string>)

  datatype Step = Step(text: string)

  datatype Recipe = Recipe(
    title: string,
    servings: int,
    totalTimeMin: Option<int>,
    difficulty: Option<string>,
    ingredients: seq<Ingredient>,
    steps: seq<Step>,
    equipment: Option<seq<string>>)

  /** One planned day: its 1-based index, the chosen recipe and its estimated cost in yen. */
  datatype DayPlan = DayPlan(dayIndex: int, recipe: Recipe, estCost: int)
}
