/** quality_check: the warnings a generated recipe draws, and the filter that
    keeps only the recipes drawing none. */
module Quality {
  import opened Wrappers
  import opened Text
  import opened Recipes

  const HEAT_WORDS: seq<string> := ["弱火", "中火", "強火", "沸騰", "余熱", "レンジ", "600W", "500W"]
  const SEASONINGS: seq<string> :=
    ["塩", "砂糖", "しょうゆ", "醤油", "みりん", "酒", "味噌", "酢", "ごま油", "オリーブオイル", "バター", "だし"]

  const FEW_INGREDIENTS: string := "材料が少なすぎます（3品以上を推奨）"
  const FEW_STEPS: string := "手順が少なすぎます（3ステップ以上を推奨）"
  const NO_HEAT: string := "加熱の記述がありません（弱火/中火/強火 や レンジ時間の明示を推奨）"
  const NO_SEASONING: string := "基本的な調味が見当たりません（塩・しょうゆ・みりん等）"
  const AS_NEEDED: string := "“適量”が含まれています（できるだけ小さじ/大さじ/グラム表記に）"

  /** The steps joined by "。". */
  function StepText(rec: Recipe): string
  {
    Join("。", seq(|rec.steps|, i requires 0 <= i < |rec.steps| => rec.steps[i].text))
  }

  /** How an f-string shows an optional amount: a missing one reads "None". */
  function AmountShown(amount: Option<string>): string
  {
    match amount
    case Some(a) => a
    case None => "None"
  }

  /** Each ingredient as "name amount", joined by "、". */
  function IngredientText(rec: Recipe): string
  {
    Join("、", seq(|rec.ingredients|, i requires 0 <= i < |rec.ingredients| =>
      rec.ingredients[i].name + " " + AmountShown(rec.ingredients[i].amount)))
  }

  /** The list `[w]` when c holds and `[]` otherwise. */
  function WarnIf(c: bool, w: string): seq<string>
  {
    if c then [w] else []
  }

  /** The warnings of quality_check, in the order it appends them, for a
      recipe with the given counts and texts. */
  function WarningsOf(ingredients: int, steps: int, stepText: string, ingText: string): seq<string>
  {
    WarnIf(ingredients < 3, FEW_INGREDIENTS)
    + WarnIf(steps < 3, FEW_STEPS)
    + WarnIf(!ContainsAny(stepText, HEAT_WORDS), NO_HEAT)
    + WarnIf(!ContainsAny(ingText, SEASONINGS), NO_SEASONING)
    + WarnIf(Contains(ingText, "適量"), AS_NEEDED)
  }

  function Warnings(rec: Recipe): seq<string>
  {
    WarningsOf(|rec.ingredients|, |rec.steps|, StepText(rec), IngredientText(rec))
  }

  /** Each warning is drawn exactly when its condition holds. */
  lemma WarningsSpec(ingredients: int, steps: int, stepText: string, ingText: string)
    ensures var w := WarningsOf(ingredients, steps, stepText, ingText);
      && (FEW_INGREDIENTS in w <==> ingredients < 3)
      && (FEW_STEPS in w <==> steps < 3)
      && (NO_HEAT in w <==> !ContainsAny(stepText, HEAT_WORDS))
      && (NO_SEASONING in w <==> !ContainsAny(ingText, SEASONINGS))
      && (AS_NEEDED in w <==> Contains(ingText, "適量"))
  {
    MessagesDistinct();
  }

  /** The five messages differ from each other (already in their first character). */
  lemma MessagesDistinct()
    ensures FEW_INGREDIENTS != FEW_STEPS && FEW_INGREDIENTS != NO_HEAT
    ensures FEW_INGREDIENTS != NO_SEASONING && FEW_INGREDIENTS != AS_NEEDED
    ensures FEW_STEPS != NO_HEAT && FEW_STEPS != NO_SEASONING && FEW_STEPS != AS_NEEDED
    ensures NO_HEAT != NO_SEASONING && NO_HEAT != AS_NEEDED && NO_SEASONING != AS_NEEDED
  {
    assert FEW_INGREDIENTS[0] != FEW_STEPS[0] && FEW_INGREDIENTS[0] != NO_HEAT[0];
    assert FEW_INGREDIENTS[0] != NO_SEASONING[0] && FEW_INGREDIENTS[0] != AS_NEEDED[0];
    assert FEW_STEPS[0] != NO_HEAT[0] && FEW_STEPS[0] != NO_SEASONING[0] && FEW_STEPS[0] != AS_NEEDED[0];
    assert NO_HEAT[0] != NO_SEASONING[0] && NO_HEAT[0] != AS_NEEDED[0] && NO_SEASONING[0] != AS_NEEDED[0];
  }

  /** No warning is drawn twice, so there are at most five. */
  lemma WarningsDistinct(ingredients: int, steps: int, stepText: string, ingText: string)
    ensures var w := WarningsOf(ingredients, steps, stepText, ingText);
      (forall i, j :: 0 <= i < j < |w| ==> w[i] != w[j]) && |w| <= 5
  {
    MessagesDistinct();
  }

  /** quality_check: appends each warning whose condition holds, and passes
      the recipe exactly when there is none. */
  method QualityCheck(rec: Recipe) returns (ok: bool, warns: seq<string>)
    ensures warns == Warnings(rec)
    ensures ok <==> warns == []
  {
    var stepText := StepText(rec);
    var ingText := IngredientText(rec);
    warns := [];
    if |rec.ingredients| < 3 {
      warns := warns + [FEW_INGREDIENTS];
    }
    ghost var w := WarnIf(|rec.ingredients| < 3, FEW_INGREDIENTS);
    assert warns == w;
    if |rec.steps| < 3 {
      warns := warns + [FEW_STEPS];
    }
    w := w + WarnIf(|rec.steps| < 3, FEW_STEPS);
    assert warns == w;
    if !ContainsAny(stepText, HEAT_WORDS) {
      warns := warns + [NO_HEAT];
    }
    w := w + WarnIf(!ContainsAny(stepText, HEAT_WORDS), NO_HEAT);
    assert warns == w;
    if !ContainsAny(ingText, SEASONINGS) {
      warns := warns + [NO_SEASONING];
    }
    w := w + WarnIf(!ContainsAny(ingText, SEASONINGS), NO_SEASONING);
    assert warns == w;
    if Contains(ingText, "適量") {
      warns := warns + [AS_NEEDED];
    }
    w := w + WarnIf(Contains(ingText, "適量"), AS_NEEDED);
    assert warns == w;
    ok := |warns| == 0;
  }

  /** A recipe passes the quality check when it draws no warning. */
  predicate Passes(rec: Recipe)
  {
    Warnings(rec) == []
  }

  /** A passing recipe has at least three ingredients and three steps, a heat
      word among its steps, a seasoning and no "適量" among its ingredients. */
  lemma PassesMeans(rec: Recipe)
    ensures Passes(rec) <==>
      |rec.ingredients| >= 3 && |rec.steps| >= 3
      && ContainsAny(StepText(rec), HEAT_WORDS)
      && ContainsAny(IngredientText(rec), SEASONINGS)
      && !Contains(IngredientText(rec), "適量")
  {
    WarningsSpec(|rec.ingredients|, |rec.steps|, StepText(rec), IngredientText(rec));
  }

  /** The recipes that keep holds of, in their order. */
  function Filter(recs: seq<Recipe>, keep: Recipe -> bool): (r: seq<Recipe>)
    ensures |r| <= |recs|
    ensures forall x :: x in r <==> x in recs && keep(x)
    ensures r == [] <==> forall x :: x in recs ==> !keep(x)
  {
    if recs == [] then []
    else
      var rest := Filter(recs[1..], keep);
      assert forall x :: x in recs <==> x == recs[0] || x in recs[1..];
      if keep(recs[0]) then [recs[0]] + rest else rest
  }

  /** _filter_passed_recipes: the recipes that pass the quality check, in their order. */
  function FilterPassed(recs: seq<Recipe>): seq<Recipe>
  {
    Filter(recs, Passes)
  }

  /** Filtering a concatenation filters each part: the order of the kept
      recipes is the order they came in. */
  lemma {:induction false} FilterAppend(a: seq<Recipe>, b: seq<Recipe>, keep: Recipe -> bool)
    ensures Filter(a + b, keep) == Filter(a, keep) + Filter(b, keep)
  {
    if a == [] {
      assert a + b == b;
    } else {
      assert (a + b)[0] == a[0];
      assert (a + b)[1..] == a[1..] + b;
      FilterAppend(a[1..], b, keep);
      if keep(a[0]) {
        assert [a[0]] + (Filter(a[1..], keep) + Filter(b, keep)) == ([a[0]] + Filter(a[1..], keep)) + Filter(b, keep);
      }
    }
  }

  /** Filtering the kept recipes again keeps them all. */
  lemma {:induction false} FilterIdempotent(recs: seq<Recipe>, keep: Recipe -> bool)
    ensures Filter(Filter(recs, keep), keep) == Filter(recs, keep)
  {
    if recs != [] {
      FilterIdempotent(recs[1..], keep);
    }
  }

  /** The index of the first kept recipe, which the filter puts first. */
  lemma {:induction false} FirstKept(recs: seq<Recipe>, keep: Recipe -> bool) returns (i: nat)
    requires exists r :: r in recs && keep(r)
    ensures i < |recs| && keep(recs[i]) && forall j :: 0 <= j < i ==> !keep(recs[j])
    ensures Filter(recs, keep) != [] && Filter(recs, keep)[0] == recs[i]
  {
    if keep(recs[0]) {
      i := 0;
    } else {
      var r :| r in recs && keep(r);
      assert r in recs[1..];
      var i' := FirstKept(recs[1..], keep);
      i := i' + 1;
    }
  }

  /** Few ingredients and steps, no heat word, no seasoning and no "適量"
      draw the first four warnings in order. */
  lemma FourWarnings(ingredients: int, steps: int, stepText: string, ingText: string)
    requires ingredients < 3 && steps < 3
    requires !ContainsAny(stepText, HEAT_WORDS) && !ContainsAny(ingText, SEASONINGS)
    requires !Contains(ingText, "適量")
    ensures WarningsOf(ingredients, steps, stepText, ingText) == [FEW_INGREDIENTS, FEW_STEPS, NO_HEAT, NO_SEASONING]
  {
  }

  // The worked example: one ingredient "梅肉 200g" without an amount, and no steps.

  const UME: Recipe := Recipe("梅", 2, None, None, [Ingredient("梅肉 200g", None, false, None)], [], None)

  lemma UmeTexts()
    ensures StepText(UME) == ""
    ensures IngredientText(UME) == "梅肉 200g None"
  {
  }

  lemma UmeNoSeasoning()
    ensures !ContainsAny("梅肉 200g None", SEASONINGS)
  {
    NoneOccur("梅肉 200g None", SEASONINGS, [0, 0, 0, 0, 0, 0, 0, 0, 0, 0, 0, 0]);
  }

  lemma UmeNotAsNeeded()
    ensures !Contains("梅肉 200g None", "適量")
  {
    MissingChar("梅肉 200g None", "適量", 0);
  }

  lemma UmeNoHeat()
    ensures !ContainsAny("", HEAT_WORDS)
  {
    NoneOccur("", HEAT_WORDS, [0, 0, 0, 0, 0, 0, 0, 0]);
  }

  /** The example draws four warnings: too few ingredients, too few steps,
      no heat and no seasoning; the missing amount reads "None", not "適量". */
  lemma UmeFourWarnings()
    ensures Warnings(UME) == [FEW_INGREDIENTS, FEW_STEPS, NO_HEAT, NO_SEASONING]
    ensures !Passes(UME)
  {
    UmeTexts();
    UmeNoSeasoning();
    UmeNotAsNeeded();
    UmeNoHeat();
    FourWarnings(1, 0, "", "梅肉 200g None");
  }
}
