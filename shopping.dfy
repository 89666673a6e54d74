/** The weekly shopping list: aggregate_shopping sums the amounts of each
    ingredient over the week's recipes, pretty_amount renders a sum, and
    cat_of files an ingredient under a shopping category. */
module Shopping {
  import opened Wrappers
  import opened Text
  import opened Recipes
  import opened Quantity
  import opened Estimate

  // ------------------------------------------------------------------
  // aggregate_shopping
  // ------------------------------------------------------------------

  /** to_g: the gram equivalent used when two amounts of one name have different units. */
  function ToGrams(u: Unit, x: real): real
  {
    match u
    case Gram => x
    case Tbsp => x * 15.0
    case Tsp => x * 5.0
    case Piece => x * 50.0
    case NoUnit => 0.0
  }

  /** Every ingredient of the plans, day after day, in recipe order. */
  function AllIngredients(plans: seq<DayPlan>): seq<Ingredient>
  {
    if plans == [] then [] else AllIngredients(plans[..|plans| - 1]) + plans[|plans| - 1].recipe.ingredients
  }

  /** An ingredient as the loop sees it: its name, and the unit and value
      amount_to_grams_or_spoons reads from `ing.amount or ""`. */
  datatype Reading = Reading(name: string, unit: Unit, value: real)

  function Read(ing: Ingredient): (r: Reading)
    ensures r.name == ing.name && r.unit != NoUnit && r.value >= 0.0
  {
    var uv := AmountToGramsOrSpoons(AmountText(ing.amount));
    Reading(ing.name, uv.0, uv.1)
  }

  /** The readings of the ingredients, one for one. */
  function Readings(items: seq<Ingredient>): (r: seq<Reading>)
    ensures |r| == |items|
  {
    seq(|items|, i requires 0 <= i < |items| => Read(items[i]))
  }

  /** name -> (unit, total value). */
  type Entries = map<string, (Unit, real)>

  /** One step of the loop: the value is added to the name's entry when the
      units agree; otherwise the entry becomes the sum of both in grams. */
  function AddEntry(agg: Entries, r: Reading): Entries
  {
    var (u, v) := if r.name in agg then agg[r.name] else (r.unit, 0.0);
    if u == r.unit then agg[r.name := (u, v + r.value)]
    else agg[r.name := (Gram, ToGrams(u, v) + ToGrams(r.unit, r.value))]
  }

  /** The entries after adding the readings one by one. */
  function Aggregate(rs: seq<Reading>): Entries
  {
    if rs == [] then map[] else AddEntry(Aggregate(rs[..|rs| - 1]), rs[|rs| - 1])
  }

  /** The summed gram equivalents of the readings of one name. */
  function GramTotal(name: string, rs: seq<Reading>): real
  {
    if rs == [] then 0.0
    else
      var last := rs[|rs| - 1];
      GramTotal(name, rs[..|rs| - 1]) + if last.name == name then ToGrams(last.unit, last.value) else 0.0
  }

  /** The summed values of the readings of one name, whatever their units. */
  function ValueTotal(name: string, rs: seq<Reading>): real
  {
    if rs == [] then 0.0
    else
      var last := rs[|rs| - 1];
      ValueTotal(name, rs[..|rs| - 1]) + if last.name == name then last.value else 0.0
  }

  /** Every reading of the name has unit u. */
  predicate OneUnit(name: string, rs: seq<Reading>, u: Unit)
  {
    forall i :: 0 <= i < |rs| && rs[i].name == name ==> rs[i].unit == u
  }

  /** The keys are exactly the names read. */
  ghost predicate KeysOf(agg: Entries, rs: seq<Reading>)
  {
    forall n :: n in agg <==> exists i :: 0 <= i < |rs| && rs[i].name == n
  }

  /** Each entry is, in grams, the sum of its name's readings in grams. */
  predicate GramsAgree(agg: Entries, rs: seq<Reading>)
  {
    forall n :: n in agg ==> ToGrams(agg[n].0, agg[n].1) == GramTotal(n, rs)
  }

  /** An entry keeps a unit other than grams only when every reading of its
      name has that unit, and then holds the plain sum of the values. */
  predicate UnitKept(agg: Entries, rs: seq<Reading>)
  {
    forall n :: n in agg && agg[n].0 != Gram ==> OneUnit(n, rs, agg[n].0) && agg[n].1 == ValueTotal(n, rs)
  }

  /** A name whose readings share one unit keeps it, with the plain sum of the values. */
  ghost predicate SharedUnit(agg: Entries, rs: seq<Reading>)
  {
    forall n, u :: n in agg && OneUnit(n, rs, u) ==> agg[n] == (u, ValueTotal(n, rs))
  }

  /** What the entries say about the readings. */
  ghost predicate Summarises(agg: Entries, rs: seq<Reading>)
  {
    KeysOf(agg, rs) && GramsAgree(agg, rs) && UnitKept(agg, rs) && SharedUnit(agg, rs)
  }

  /** The aggregated entries summarise the readings: the keys are exactly
      the names; each entry is, in grams, the sum of its name's amounts in
      grams; an entry keeps a unit other than grams only when all amounts of
      its name have that unit; a name whose amounts share one unit keeps it
      with the plain sum. */
  lemma {:induction false} AggregateSpec(rs: seq<Reading>)
    ensures Summarises(Aggregate(rs), rs)
  {
    if rs != [] {
      var init := rs[..|rs| - 1];
      var r := rs[|rs| - 1];
      AggregateSpec(init);
      assert rs == init + [r];
      StepKeys(Aggregate(init), init, r);
      StepGrams(Aggregate(init), init, r);
      StepUnitKept(Aggregate(init), init, r);
      StepShared(Aggregate(init), init, r);
    }
  }

  lemma StepKeys(prev: Entries, init: seq<Reading>, r: Reading)
    requires KeysOf(prev, init)
    ensures KeysOf(AddEntry(prev, r), init + [r])
  {
    var rs := init + [r];
    var agg := AddEntry(prev, r);
    forall n ensures n in agg <==> exists i :: 0 <= i < |rs| && rs[i].name == n {
      if exists i :: 0 <= i < |rs| && rs[i].name == n {
        var i :| 0 <= i < |rs| && rs[i].name == n;
        if i < |init| {
          assert init[i].name == n;
        } else {
          assert rs[i] == r;
        }
      }
      if n == r.name {
        assert rs[|init|] == r;
      }
      if n in prev {
        var i :| 0 <= i < |init| && init[i].name == n;
        assert rs[i].name == n;
      }
    }
  }

  /** A name that is not yet an entry has no earlier readings. */
  lemma NewName(prev: Entries, init: seq<Reading>, name: string)
    requires KeysOf(prev, init) && name !in prev
    ensures forall i :: 0 <= i < |init| ==> init[i].name != name
    ensures ValueTotal(name, init) == 0.0 && GramTotal(name, init) == 0.0
    ensures forall u :: OneUnit(name, init, u)
  {
    forall i | 0 <= i < |init| ensures init[i].name != name {
      assert init[i].name in prev;
    }
    NoNameNoTotal(name, init);
  }

  lemma StepGrams(prev: Entries, init: seq<Reading>, r: Reading)
    requires KeysOf(prev, init) && GramsAgree(prev, init)
    ensures GramsAgree(AddEntry(prev, r), init + [r])
  {
    var rs := init + [r];
    assert rs[..|rs| - 1] == init && rs[|rs| - 1] == r;
    if r.name !in prev {
      NewName(prev, init, r.name);
    }
  }

  lemma StepUnitKept(prev: Entries, init: seq<Reading>, r: Reading)
    requires KeysOf(prev, init) && UnitKept(prev, init)
    ensures UnitKept(AddEntry(prev, r), init + [r])
  {
    var rs := init + [r];
    assert rs[..|rs| - 1] == init && rs[|rs| - 1] == r;
    var agg := AddEntry(prev, r);
    if r.name !in prev {
      NewName(prev, init, r.name);
    }
    forall n, u | OneUnit(n, init, u) && (n != r.name || r.unit == u) ensures OneUnit(n, rs, u) {
      forall i | 0 <= i < |rs| && rs[i].name == n ensures rs[i].unit == u {
        if i < |init| {
          assert rs[i] == init[i];
        }
      }
    }
  }

  lemma StepShared(prev: Entries, init: seq<Reading>, r: Reading)
    requires KeysOf(prev, init) && SharedUnit(prev, init)
    ensures SharedUnit(AddEntry(prev, r), init + [r])
  {
    var rs := init + [r];
    assert rs[..|rs| - 1] == init && rs[|rs| - 1] == r;
    if r.name !in prev {
      NewName(prev, init, r.name);
    }
    forall n, u | OneUnit(n, rs, u) ensures OneUnit(n, init, u) {
      forall i | 0 <= i < |init| && init[i].name == n ensures init[i].unit == u {
        assert rs[i] == init[i];
      }
    }
  }

  /** A name without readings adds up to nothing. */
  lemma {:induction false} NoNameNoTotal(name: string, rs: seq<Reading>)
    requires forall i :: 0 <= i < |rs| ==> rs[i].name != name
    ensures ValueTotal(name, rs) == 0.0 && GramTotal(name, rs) == 0.0
  {
    if rs != [] {
      NoNameNoTotal(name, rs[..|rs| - 1]);
    }
  }

  /** The body of the loop of aggregate_shopping for one reading. */
  method AddReading(agg0: Entries, r: Reading) returns (agg: Entries)
    ensures agg == AddEntry(agg0, r)
  {
    var (u, v) := if r.name in agg0 then agg0[r.name] else (r.unit, 0.0);
    if u == r.unit {
      agg := agg0[r.name := (u, v + r.value)];
    } else {
      agg := agg0[r.name := (Gram, ToGrams(u, v) + ToGrams(r.unit, r.value))];
    }
  }

  method ReadIngredient(ing: Ingredient) returns (r: Reading)
    ensures r == Read(ing)
  {
    var (unit, val) := AmountToGramsOrSpoons(AmountText(ing.amount));
    r := Reading(ing.name, unit, val);
  }

  /** The inner loop of aggregate_shopping: one recipe's ingredients added
      to the entries of the ingredients before them. */
  method AddIngredients(agg0: Entries, ghost before: seq<Ingredient>, ings: seq<Ingredient>) returns (agg: Entries)
    requires agg0 == Aggregate(Readings(before))
    ensures agg == Aggregate(Readings(before + ings))
  {
    agg := agg0;
    assert before + ings[..0] == before;
    for k := 0 to |ings|
      invariant agg == Aggregate(Readings(before + ings[..k]))
    {
      var ing := ings[k];
      PrefixSnoc(before, ings, k);
      ReadingsSnoc(before + ings[..k], ing);
      AggregateSnoc(Readings(before + ings[..k]), Read(ing));
      var r := ReadIngredient(ing);
      agg := AddReading(agg, r);
    }
    assert ings[..|ings|] == ings;
  }

  lemma PrefixSnoc<T>(a: seq<T>, b: seq<T>, k: nat)
    requires k < |b|
    ensures a + b[..k + 1] == (a + b[..k]) + [b[k]]
  {
    assert b[..k + 1] == b[..k] + [b[k]];
  }

  lemma ReadingsSnoc(items: seq<Ingredient>, x: Ingredient)
    ensures Readings(items + [x]) == Readings(items) + [Read(x)]
  {
    var a := Readings(items + [x]);
    var b := Readings(items) + [Read(x)];
    forall i | 0 <= i < |a| ensures a[i] == b[i] {
      if i < |items| {
        assert (items + [x])[i] == items[i];
      }
    }
  }

  lemma AggregateSnoc(rs: seq<Reading>, r: Reading)
    ensures Aggregate(rs + [r]) == AddEntry(Aggregate(rs), r)
  {
    assert (rs + [r])[..|rs|] == rs;
  }

  /** aggregate_shopping, day by day and ingredient by ingredient. */
  method AggregateShopping(plans: seq<DayPlan>) returns (agg: Entries)
    ensures agg == Aggregate(Readings(AllIngredients(plans)))
  {
    agg := map[];
    for d := 0 to |plans|
      invariant agg == Aggregate(Readings(AllIngredients(plans[..d])))
    {
      assert plans[..d + 1][..d] == plans[..d];
      agg := AddIngredients(agg, AllIngredients(plans[..d]), plans[d].recipe.ingredients);
    }
    assert plans[..|plans|] == plans;
  }

  /** The week's ingredients are exactly those of its recipes. */
  lemma {:induction false} AllIngredientsSpec(plans: seq<DayPlan>)
    ensures forall ing :: ing in AllIngredients(plans) <==> exists p :: p in plans && ing in p.recipe.ingredients
  {
    if plans != [] {
      var init := plans[..|plans| - 1];
      AllIngredientsSpec(init);
      assert plans == init + [plans[|plans| - 1]];
    }
  }

  /** The shopping list has an entry for exactly the names of the ingredients. */
  lemma ShoppingNames(items: seq<Ingredient>)
    ensures forall n :: n in Aggregate(Readings(items)) <==> exists ing :: ing in items && ing.name == n
  {
    var rs := Readings(items);
    AggregateSpec(rs);
    forall n | n in Aggregate(rs) ensures exists ing :: ing in items && ing.name == n {
      var i :| 0 <= i < |rs| && rs[i].name == n;
      assert items[i] in items;
    }
    forall ing | ing in items ensures ing.name in Aggregate(rs) {
      var i :| 0 <= i < |items| && items[i] == ing;
      assert rs[i].name == ing.name;
    }
  }

  // ------------------------------------------------------------------
  // pretty_amount
  // ------------------------------------------------------------------

  function Abs(x: real): real
  {
    if x < 0.0 then -x else x
  }

  /** pretty_amount: grams prettified, spoons to the nearest half, pieces as
      a whole number when within a millionth of their integer part. */
  function PrettyAmount(u: Unit, x: real): string
  {
    match u
    case Gram => GramsToPretty(RoundHalfEven(x))
    case Tbsp => HalfSpoons("大さじ", x)
    case Tsp => HalfSpoons("小さじ", x)
    case Piece => Pieces(x)
    case NoUnit => "適量"
  }

  /** f"{prefix}{round(x*2)/2:g}", written with HalvesG for the
      non-negative counts of half spoons (HalfSpoonsIsFormatG). */
  function HalfSpoons(prefix: string, x: real): string
  {
    var h := RoundHalfEven(x * 2.0);
    if h >= 0 then SpoonText(prefix, h) else prefix + FormatG(h as real / 2.0)
  }

  /** HalfSpoons is the f-string: the value round(x*2)/2 shown with :g. */
  lemma HalfSpoonsIsFormatG(prefix: string, x: real)
    ensures HalfSpoons(prefix, x) == prefix + FormatG(RoundHalfEven(x * 2.0) as real / 2.0)
  {
    var h := RoundHalfEven(x * 2.0);
    if h >= 0 {
      HalvesGIsFormatG(h);
    }
  }

  /** f"{int(x) if abs(x-int(x))<1e-6 else x:g}個": a whole count is
      written as its decimal digits. */
  function Pieces(x: real): string
  {
    if Abs(x - Trunc(x) as real) < 0.000001 then IntToString(Trunc(x)) + "個" else FormatG(x) + "個"
  }

  /** A spoon sum is shown as a whole number of half spoons (which
      SpoonTextParses reads back), within a quarter spoon of the sum. */
  lemma PrettySpoon(u: Unit, x: real)
    requires u == Tbsp || u == Tsp
    requires x >= 0.0
    ensures var h := RoundHalfEven(x * 2.0);
      && h >= 0
      && PrettyAmount(u, x) == SpoonText(if u == Tbsp then "大さじ" else "小さじ", h)
      && -0.25 <= h as real / 2.0 - x <= 0.25
  {
  }

  /** A weight is shown as a whole number of grams, a multiple of the
      rounding step and within half a step (plus the rounding to a gram) of
      the sum, and it reads back as that many grams. */
  lemma PrettyGramsReadsBack(x: real)
    requires x >= 0.0
    ensures var g := RoundHalfEven(x);
      var p := RoundedGrams(g);
      && p >= 0
      && PrettyAmount(Gram, x) == NatToString(p) + "g"
      && p % GramStep(g) == 0
      && -25.5 <= p as real - x <= 25.5
      && AmountToGramsOrSpoons(PrettyAmount(Gram, x)) == (Gram, p as real)
  {
    var g := RoundHalfEven(x);
    var p := RoundedGrams(g);
    GramsTextReadsBack(p);
  }

  /** "<digits>g" reads back as that many grams. */
  lemma GramsTextReadsBack(p: nat)
    ensures AmountToGramsOrSpoons(NatToString(p) + "g") == (Gram, p as real)
  {
    GramsTextCanonical(p);
    GramsTextFound(p);
  }

  lemma GramsTextCanonical(p: nat)
    ensures Canonical(NatToString(p) + "g") == NatToString(p) + "g"
  {
    var q := NatToString(p);
    var s := q + "g";
    forall k | 0 <= k < |s| ensures s[k] != '．' && !IsUpperAscii(s[k]) {
      if k < |q| {
        assert s[k] == q[k];
      }
    }
    assert s[0] == q[0];
    CanonicalIdentity(s);
  }

  lemma GramsTextFound(p: nat)
    ensures SearchNumberWithUnit(NatToString(p) + "g", ["g", "グラム"], 0) == Some(p as real)
  {
    var q := NatToString(p);
    var s := q + "g";
    forall k | 0 <= k < |q| ensures DigitOf(s[k], false) {
      assert s[k] == q[k];
    }
    DigitRunEndAt(s, 0, |q|, false);
    assert s[0..|q|] == q;
    assert ScanNumber(s, 0, false) == Some((|q|, p as real));
    assert SkipSpaces(s, |q|) == |q|;
    assert StartsAt(s, |q|, "g");
    assert NumberWithUnitAt(s, 0, ["g", "グラム"]) == Some(p as real);
  }

  /** A whole number of pieces is shown without a decimal point. */
  lemma PrettyWholePieces(n: nat)
    ensures PrettyAmount(Piece, n as real) == NatToString(n) + "個"
  {
    assert Trunc(n as real) == n;
  }

  // ------------------------------------------------------------------
  // cat_of
  // ------------------------------------------------------------------

  const MEAT_FISH: string := "精肉/魚"
  const PRODUCE: string := "青果"
  const SEASONING: string := "調味料"
  const OTHER: string := "その他"

  /** The shopping categories with their keywords, in dictionary order. */
  const CATS: seq<(string, seq<string>)> := [
    (MEAT_FISH, ["鶏", "豚", "牛", "鮭", "さば", "ひき肉", "ベーコン", "ハム", "ツナ", "卵"]),
    (PRODUCE, ["玉ねぎ", "ねぎ", "長ねぎ", "キャベツ", "にんじん", "じゃがいも", "なす", "ピーマン", "もやし",
      "ブロッコリー", "きのこ", "しめじ", "えのき", "トマト", "小松菜", "ほうれん草", "青菜"]),
    (SEASONING, ["塩", "砂糖", "しょうゆ", "醤油", "みりん", "酒", "味噌", "酢", "ごま油", "オリーブオイル", "バター",
      "顆粒だし", "だし"]),
    (OTHER, [])
  ]

  /** The index, from i on, of the first category with a keyword in the name. */
  function FirstCategory(name: string, cats: seq<(string, seq<string>)>, i: nat): (r: Option<nat>)
    requires i <= |cats|
    ensures r.Some? ==> i <= r.value < |cats| && ContainsAny(name, cats[r.value].1)
    ensures r.Some? ==> forall j :: i <= j < r.value ==> !ContainsAny(name, cats[j].1)
    ensures r.None? <==> forall j :: i <= j < |cats| ==> !ContainsAny(name, cats[j].1)
    decreases |cats| - i
  {
    if i == |cats| then None
    else if ContainsAny(name, cats[i].1) then Some(i)
    else FirstCategory(name, cats, i + 1)
  }

  /** cat_of: the first category with a keyword in the name, else その他. */
  function CatOf(name: string): string
  {
    match FirstCategory(name, CATS, 0)
    case Some(i) => CATS[i].0
    case None => OTHER
  }

  /** The category is one of the four; it is a named category exactly when
      one of its keywords occurs in the name and no keyword of an earlier
      category does, and その他 exactly when no keyword occurs at all. */
  lemma CatOfSpec(name: string)
    ensures CatOf(name) in [MEAT_FISH, PRODUCE, SEASONING, OTHER]
    ensures CatOf(name) == MEAT_FISH <==> ContainsAny(name, CATS[0].1)
    ensures CatOf(name) == PRODUCE <==> !ContainsAny(name, CATS[0].1) && ContainsAny(name, CATS[1].1)
    ensures CatOf(name) == SEASONING <==>
      !ContainsAny(name, CATS[0].1) && !ContainsAny(name, CATS[1].1) && ContainsAny(name, CATS[2].1)
    ensures CatOf(name) == OTHER <==>
      !ContainsAny(name, CATS[0].1) && !ContainsAny(name, CATS[1].1) && !ContainsAny(name, CATS[2].1)
  {
    assert MEAT_FISH[0] != PRODUCE[0] && MEAT_FISH[0] != SEASONING[0] && MEAT_FISH[0] != OTHER[0];
    assert PRODUCE[0] != SEASONING[0] && PRODUCE[0] != OTHER[0] && SEASONING[0] != OTHER[0];
    assert !ContainsAny(name, CATS[3].1);
  }

  /** Any name with 鶏 in it is filed under meat and fish. */
  lemma ChickenIsMeat(rest: string)
    ensures CatOf("鶏" + rest) == MEAT_FISH
  {
    var s := "鶏" + rest;
    assert s[0..1] == "鶏";
    ContainsAt(s, "鶏", 0);
    assert CATS[0].1[0] == "鶏";
    CatOfSpec(s);
  }

  /** 長ねぎ has no meat or fish keyword and is found through ねぎ. */
  lemma LeekIsProduce()
    ensures CatOf("長ねぎ") == PRODUCE
  {
    NoneOccur("長ねぎ", CATS[0].1, [0, 0, 0, 0, 0, 0, 0, 0, 0, 0]);
    assert "長ねぎ"[1..3] == "ねぎ";
    ContainsAt("長ねぎ", "ねぎ", 1);
    assert CATS[1].1[1] == "ねぎ";
    CatOfSpec("長ねぎ");
  }

  /** The first match wins: 塩さば has a seasoning keyword too, but さば
      comes first. */
  lemma SaltedMackerelIsFish()
    ensures ContainsAny("塩さば", CATS[2].1)
    ensures CatOf("塩さば") == MEAT_FISH
  {
    assert "塩さば"[0..1] == "塩";
    ContainsAt("塩さば", "塩", 0);
    assert CATS[2].1[0] == "塩";
    assert "塩さば"[1..3] == "さば";
    ContainsAt("塩さば", "さば", 1);
    assert CATS[0].1[4] == "さば";
    CatOfSpec("塩さば");
  }
}
