/** infer_tools_from_recipe: the cooking tools a recipe needs, guessed from
    keywords in its ingredient names and steps. */
module Tools {
  import opened Text
  import opened Recipes

  /** Each rule: the keywords of its alternation, and the tools it adds. */
  const TOOL_RULES: seq<(seq<string>, seq<string>)> := [
    (["切る", "刻む", "みじん", "千切り", "輪切り", "そぎ切り"], ["包丁", "まな板"]),
    (["混ぜ", "和え", "ほぐし", "溶き卵", "衣を作る"], ["ボウル", "菜箸"]),
    (["炒め", "焼き色", "ソテー", "香りが立つまで"], ["フライパン", "フライ返し"]),
    (["茹で", "ゆで", "湯が", "下茹で"], ["鍋（湯用）", "ザル"]),
    (["煮", "煮込", "煮立", "弱火", "中火", "強火", "沸騰"], ["鍋", "菜箸"]),
    (["電子レンジ", "レンジ", "600W", "500W"], ["電子レンジ", "耐熱容器", "ラップ"])
  ]

  /** The alternation of measuring words. */
  const MEASURE_WORDS: seq<string> := ["小さじ", "大さじ", "カップ", "cup", "cc", "ml", "mL", "L", "ℓ"]

  const MEASURING_SPOON: string := "計量スプーン"

  /** The list returned when no rule fires. */
  const DEFAULT_TOOLS: seq<string> := ["包丁", "まな板", "フライパンまたは鍋", "計量スプーン"]

  /** The text searched: ingredient names joined by "、", a newline, the steps joined by "。". */
  function RecipeText(rec: Recipe): string
  {
    var names := seq(|rec.ingredients|, i requires 0 <= i < |rec.ingredients| => rec.ingredients[i].name);
    var steps := seq(|rec.steps|, i requires 0 <= i < |rec.steps| => rec.steps[i].text);
    Join("、", names) + "\n" + Join("。", steps)
  }

  predicate NoDuplicates(s: seq<string>)
  {
    forall i, j :: 0 <= i < j < |s| ==> s[i] != s[j]
  }

  /** `for t in add: if t not in tools: tools.append(t)`. */
  function AppendNew(tools: seq<string>, add: seq<string>): (r: seq<string>)
    decreases |add|
  {
    if add == [] then tools
    else
      var t := AppendNew(tools, add[..|add| - 1]);
      var x := add[|add| - 1];
      if x in t then t else t + [x]
  }

  /** Appending only new tools keeps the old list in front, adds exactly the
      given tools and never repeats one. */
  lemma {:induction false} AppendNewSpec(tools: seq<string>, add: seq<string>)
    ensures tools <= AppendNew(tools, add)
    ensures forall x :: x in AppendNew(tools, add) <==> x in tools || x in add
    ensures NoDuplicates(tools) ==> NoDuplicates(AppendNew(tools, add))
    decreases |add|
  {
    if add != [] {
      var init := add[..|add| - 1];
      AppendNewSpec(tools, init);
      assert add == init + [add[|add| - 1]];
      forall x ensures x in add <==> x in init || x == add[|add| - 1] {
        if x in add {
          var i :| 0 <= i < |add| && add[i] == x;
          if i < |add| - 1 {
            assert init[i] == x;
          }
        }
      }
    }
  }

  /** The tools after the first k rules. */
  function ToolsAfterRules(txt: string, k: nat): seq<string>
    requires k <= |TOOL_RULES|
  {
    if k == 0 then []
    else
      var t := ToolsAfterRules(txt, k - 1);
      if ContainsAny(txt, TOOL_RULES[k - 1].0) then AppendNew(t, TOOL_RULES[k - 1].1) else t
  }

  /** What infer_tools_from_recipe returns for the searched text. */
  function InferTools(txt: string): seq<string>
  {
    var t := ToolsAfterRules(txt, |TOOL_RULES|);
    var t := if ContainsAny(txt, MEASURE_WORDS) then AppendNew(t, [MEASURING_SPOON]) else t;
    if t == [] then DEFAULT_TOOLS else t
  }

  /** A tool is among those of the first k rules exactly when one of those
      rules fires and lists it; none is repeated. */
  lemma {:induction false} ToolsAfterRulesSpec(txt: string, k: nat)
    requires k <= |TOOL_RULES|
    ensures NoDuplicates(ToolsAfterRules(txt, k))
    ensures forall x :: x in ToolsAfterRules(txt, k) <==>
      exists j :: 0 <= j < k && ContainsAny(txt, TOOL_RULES[j].0) && x in TOOL_RULES[j].1
  {
    if k > 0 {
      ToolsAfterRulesSpec(txt, k - 1);
      var t := ToolsAfterRules(txt, k - 1);
      AppendNewSpec(t, TOOL_RULES[k - 1].1);
      forall x | x in ToolsAfterRules(txt, k)
        ensures exists j :: 0 <= j < k && ContainsAny(txt, TOOL_RULES[j].0) && x in TOOL_RULES[j].1
      {
        if x !in t {
          assert ContainsAny(txt, TOOL_RULES[k - 1].0) && x in TOOL_RULES[k - 1].1;
        }
      }
      forall x | exists j :: 0 <= j < k && ContainsAny(txt, TOOL_RULES[j].0) && x in TOOL_RULES[j].1
        ensures x in ToolsAfterRules(txt, k)
      {
        var j :| 0 <= j < k && ContainsAny(txt, TOOL_RULES[j].0) && x in TOOL_RULES[j].1;
        if j < k - 1 {
          assert x in t;
        }
      }
    }
  }

  /** With none of the first k rules firing, no tool has been chosen yet. */
  lemma {:induction false} NoRuleNoTools(txt: string, k: nat)
    requires k <= |TOOL_RULES|
    requires forall j :: 0 <= j < k ==> !ContainsAny(txt, TOOL_RULES[j].0)
    ensures ToolsAfterRules(txt, k) == []
  {
    if k > 0 {
      NoRuleNoTools(txt, k - 1);
    }
  }

  /** Some rule fires on the text. */
  predicate AnyRuleFires(txt: string)
  {
    exists j :: 0 <= j < |TOOL_RULES| && ContainsAny(txt, TOOL_RULES[j].0)
  }

  /** The inferred list never repeats a tool and is never empty; when a rule or a
      measuring word fires it holds exactly the tools of the firing rules and the
      measuring spoon for a measuring word, otherwise it is the default list. */
  lemma InferToolsSpec(txt: string)
    ensures NoDuplicates(InferTools(txt)) && InferTools(txt) != []
    ensures AnyRuleFires(txt) || ContainsAny(txt, MEASURE_WORDS) ==>
      forall x :: x in InferTools(txt) <==>
        (exists j :: 0 <= j < |TOOL_RULES| && ContainsAny(txt, TOOL_RULES[j].0) && x in TOOL_RULES[j].1)
        || (x == MEASURING_SPOON && ContainsAny(txt, MEASURE_WORDS))
    ensures !AnyRuleFires(txt) && !ContainsAny(txt, MEASURE_WORDS) ==> InferTools(txt) == DEFAULT_TOOLS
  {
    var t := ToolsAfterRules(txt, |TOOL_RULES|);
    ToolsAfterRulesSpec(txt, |TOOL_RULES|);
    AppendNewSpec(t, [MEASURING_SPOON]);
    if AnyRuleFires(txt) {
      var j :| 0 <= j < |TOOL_RULES| && ContainsAny(txt, TOOL_RULES[j].0);
      assert TOOL_RULES[j].1[0] in TOOL_RULES[j].1;
      assert TOOL_RULES[j].1[0] in t;
    }
    if !AnyRuleFires(txt) {
      NoRuleNoTools(txt, |TOOL_RULES|);
    }
    assert NoDuplicates(DEFAULT_TOOLS);
  }

  /** Rules are applied in their listed order: the tools of an earlier rule
      stay in front of those that later rules add. */
  lemma {:induction false} ToolsAfterRulesPrefix(txt: string, j: nat, k: nat)
    requires j <= k <= |TOOL_RULES|
    ensures ToolsAfterRules(txt, j) <= ToolsAfterRules(txt, k)
    decreases k
  {
    if j < k {
      ToolsAfterRulesPrefix(txt, j, k - 1);
      AppendNewSpec(ToolsAfterRules(txt, k - 1), TOOL_RULES[k - 1].1);
    }
  }

  /** When something fires, the inferred list starts with the tools of the
      rules in rule order, and the measuring spoon, when it is added by a
      measuring word alone, comes last. */
  lemma InferToolsOrder(txt: string)
    ensures AnyRuleFires(txt) || ContainsAny(txt, MEASURE_WORDS) ==>
      ToolsAfterRules(txt, |TOOL_RULES|) <= InferTools(txt)
    ensures ContainsAny(txt, MEASURE_WORDS) && MEASURING_SPOON !in ToolsAfterRules(txt, |TOOL_RULES|) ==>
      InferTools(txt) == ToolsAfterRules(txt, |TOOL_RULES|) + [MEASURING_SPOON]
  {
    var t := ToolsAfterRules(txt, |TOOL_RULES|);
    AppendNewSpec(t, [MEASURING_SPOON]);
    if AnyRuleFires(txt) || ContainsAny(txt, MEASURE_WORDS) {
      InferToolsSpec(txt);
      assert [MEASURING_SPOON][..0] == [];
    }
  }

  /** infer_tools_from_recipe, rule by rule and tool by tool. */
  method InferToolsFromRecipe(rec: Recipe) returns (tools: seq<string>)
    ensures tools == InferTools(RecipeText(rec))
  {
    var txt := RecipeText(rec);
    tools := [];
    for k := 0 to |TOOL_RULES|
      invariant tools == ToolsAfterRules(txt, k)
    {
      var (pattern, add) := TOOL_RULES[k];
      if ContainsAny(txt, pattern) {
        var before := tools;
        for i := 0 to |add|
          invariant tools == AppendNew(before, add[..i])
        {
          assert add[..i + 1][..i] == add[..i];
          if add[i] !in tools {
            tools := tools + [add[i]];
          }
        }
        assert add[..|add|] == add;
      }
    }
    assert tools == ToolsAfterRules(txt, |TOOL_RULES|);
    if ContainsAny(txt, MEASURE_WORDS) {
      ghost var t := tools;
      if MEASURING_SPOON !in tools {
        tools := tools + [MEASURING_SPOON];
      }
      assert [MEASURING_SPOON][..0] == [];
      assert tools == AppendNew(t, [MEASURING_SPOON]);
    }
    if tools == [] {
      tools := DEFAULT_TOOLS;
    }
  }
}
