/** Cleaning of step texts and ingredient amounts: step-number prefixes,
    quantities written into names, amount sanitising, unit parsing and
    rendering, amount guessing from per-serving tables, child-mode
    adjustment and the normalisation pass over a recipe's ingredients. */
module Quantity {
  import opened Wrappers
  import opened Text
  import opened Recipes

  // ------------------------------------------------------------------
  // Step prefixes: `STEP 1:`, `1.`, `２）`, `①`
  // ------------------------------------------------------------------

  /** The class `[:：\-\s]`. */
  predicate IsStepSeparator(c: char)
  {
    c == ':' || c == '：' || c == '-' || IsSpace(c)
  }

  /** The class `[\.．、\)）]`. */
  predicate IsOrdinalMark(c: char)
  {
    c == '.' || c == '．' || c == '、' || c == ')' || c == '）'
  }

  /** The class `[①-⑳]`. */
  predicate IsCircledNumber(c: char)
  {
    '①' <= c <= '⑳'
  }

  /** End of the run of separators starting at i. */
  function SkipSeparators(s: string, i: nat): (e: nat)
    requires i <= |s|
    ensures i <= e <= |s|
    ensures forall k :: i <= k < e ==> IsStepSeparator(s[k])
    ensures e < |s| ==> !IsStepSeparator(s[e])
    decreases |s| - i
  {
    if i < |s| && IsStepSeparator(s[i]) then SkipSeparators(s, i + 1) else i
  }

  lemma {:induction false} SkipSeparatorsAt(s: string, i: nat, j: nat)
    requires i <= j <= |s|
    requires forall k :: i <= k < j ==> IsStepSeparator(s[k])
    requires j < |s| ==> !IsStepSeparator(s[j])
    ensures SkipSeparators(s, i) == j
    decreases j - i
  {
    if i < j {
      SkipSeparatorsAt(s, i + 1, j);
    }
  }

  /** Where the anchored step-prefix pattern, tried once at the start of s, stops:
      `^\s*` then `STEP\s*<digits><separators>`, `<digits><mark>\s*` or `<circled>\s*`. */
  function StepPrefixEnd(s: string): (r: Option<nat>)
    ensures r.Some? ==> r.value <= |s|
  {
    var i := SkipSpaces(s, 0);
    var j := if i + 4 <= |s| then SkipSpaces(s, i + 4) else i;
    var d := DigitRunEnd(s, i, false);
    if StartsAt(s, i, "STEP") && DigitRunEnd(s, j, false) > j then
      Some(SkipSeparators(s, DigitRunEnd(s, j, false)))
    else if d > i && d < |s| && IsOrdinalMark(s[d]) then
      Some(SkipSpaces(s, d + 1))
    else if i < |s| && IsCircledNumber(s[i]) then
      Some(SkipSpaces(s, i + 1))
    else
      None
  }

  /** strip_step_prefix: the step-number prefix, if any, removed, then stripped. */
  function StripStepPrefix(text: string): (r: string)
    ensures r == [] || (!IsSpace(r[0]) && !IsSpace(r[|r| - 1]))
    ensures StepPrefixEnd(text).None? ==> r == Strip(text)
  {
    match StepPrefixEnd(text)
    case Some(e) => Strip(text[e..])
    case None => Strip(text)
  }

  /** Skipping whitespace inside the second part of a concatenation. */
  lemma {:induction false} SkipSpacesShift(p: string, t: string, i: nat)
    requires i <= |t|
    ensures SkipSpaces(p + t, |p| + i) == |p| + SkipSpaces(t, i)
    decreases |t| - i
  {
    if i < |t| {
      assert (p + t)[|p| + i] == t[i];
      if IsSpace(t[i]) {
        SkipSpacesShift(p, t, i + 1);
      }
    }
  }

  /** Skipping the whitespace after a prefix lands where TrimStart of the rest begins. */
  lemma SkipSpacesTrim(p: string, t: string)
    ensures (p + t)[SkipSpaces(p + t, |p|)..] == TrimStart(t)
  {
    SkipSpacesShift(p, t, 0);
    assert (p + t)[|p| + SkipSpaces(t, 0)..] == t[SkipSpaces(t, 0)..];
  }

  /** Stripping after TrimStart is stripping. */
  lemma StripTrimStart(t: string)
    ensures Strip(TrimStart(t)) == Strip(t)
  {
    var u := TrimStart(t);
    assert TrimStart(u) == u;
  }

  /** Once the prefix ends at e, what remains is s[e..], stripped. */
  lemma StripAfterPrefix(s: string, e: nat)
    requires StepPrefixEnd(s) == Some(e)
    ensures StripStepPrefix(s) == Strip(s[e..])
  {
  }

  /** A leading run of digits followed by an ordinal mark is a prefix. */
  lemma NumberedPrefixEnd(s: string, d: nat)
    requires 0 < d < |s| && IsOrdinalMark(s[d])
    requires forall k :: 0 <= k < d ==> IsDigit(s[k])
    ensures StepPrefixEnd(s) == Some(SkipSpaces(s, d + 1))
  {
    assert IsDigit(s[0]);
    assert SkipSpaces(s, 0) == 0;
    NoLabelAtStart(s);
    DigitRunEndAt(s, 0, d, false);
  }

  /** A text that does not begin with 'S' has no STEP label at its start. */
  lemma NoLabelAtStart(s: string)
    requires s != [] && s[0] != 'S'
    ensures !StartsAt(s, 0, "STEP")
  {
    if 4 <= |s| {
      assert s[0..4][0] == s[0];
    }
  }

  /** A numbered step `12.rest` loses its number. */
  lemma {:induction false} StripNumberedStep(q: string, rest: string)
    requires q != [] && forall k :: 0 <= k < |q| ==> IsAsciiDigit(q[k])
    ensures StripStepPrefix(q + "." + rest) == Strip(rest)
  {
    NumberedStepPrefix(q, rest);
    PrefixThenSpaces(q + ".", rest);
  }

  /** A prefix p that the pattern matches together with the spaces after it
      leaves the rest, stripped. */
  lemma PrefixThenSpaces(p: string, rest: string)
    requires StepPrefixEnd(p + rest) == Some(SkipSpaces(p + rest, |p|))
    ensures StripStepPrefix(p + rest) == Strip(rest)
  {
    StripAfterPrefix(p + rest, SkipSpaces(p + rest, |p|));
    SkipSpacesTrim(p, rest);
    StripTrimStart(rest);
  }

  /** In `12.rest` the prefix runs over the number, the point and the spaces after it. */
  lemma NumberedStepPrefix(q: string, rest: string)
    requires q != [] && forall k :: 0 <= k < |q| ==> IsAsciiDigit(q[k])
    ensures StepPrefixEnd(q + "." + rest) == Some(SkipSpaces(q + "." + rest, |q| + 1))
  {
    var s := (q + ".") + rest;
    forall k | 0 <= k < |q| ensures IsDigit(s[k]) {
      assert s[k] == q[k];
    }
    assert s[|q|] == '.';
    NumberedPrefixEnd(s, |q|);
  }

  /** A leading circled number is a prefix. */
  lemma CircledPrefixEnd(s: string)
    requires |s| > 0 && IsCircledNumber(s[0])
    ensures StepPrefixEnd(s) == Some(SkipSpaces(s, 1))
  {
    assert SkipSpaces(s, 0) == 0;
    if 4 <= |s| {
      assert s[0..4][0] == s[0];
    }
    assert DigitRunEnd(s, 0, false) == 0;
  }

  /** A circled step number `③rest` is removed. */
  lemma StripCircledStep(c: char, rest: string)
    requires IsCircledNumber(c)
    ensures StripStepPrefix([c] + rest) == Strip(rest)
  {
    var s := [c] + rest;
    assert s[0] == c;
    CircledPrefixEnd(s);
    StripAfterPrefix(s, SkipSpaces(s, 1));
    SkipSpacesTrim([c], rest);
    StripTrimStart(rest);
  }

  /** `STEP ` followed by digits is a prefix that runs on over the separators. */
  lemma LabelledPrefixEnd(s: string, d: nat)
    requires 5 < d < |s| && s[..5] == "STEP " && !IsDigit(s[d])
    requires forall k :: 5 <= k < d ==> IsDigit(s[k])
    ensures StepPrefixEnd(s) == Some(SkipSeparators(s, d))
  {
    assert s[0] == 'S' && s[4] == ' ';
    assert SkipSpaces(s, 0) == 0;
    assert s[0..4] == "STEP";
    assert SkipSpaces(s, 4) == 5 by {
      assert IsDigit(s[5]);
    }
    DigitRunEndAt(s, 5, d, false);
  }

  /** A labelled step `STEP 2: rest` loses its label and separators. */
  lemma StripLabelledStep(q: string, rest: string)
    requires q != [] && forall k :: 0 <= k < |q| ==> IsAsciiDigit(q[k])
    requires rest == [] || !IsStepSeparator(rest[0])
    ensures StripStepPrefix("STEP " + q + ": " + rest) == Strip(rest)
  {
    var s := "STEP " + q + ": " + rest;
    var d := 5 + |q|;
    forall k | 5 <= k < d ensures IsDigit(s[k]) {
      assert s[k] == q[k - 5];
    }
    assert s[..5] == "STEP ";
    assert s[d] == ':' && s[d + 1] == ' ';
    if rest != [] {
      assert s[d + 2] == rest[0];
    }
    LabelledPrefixEnd(s, d);
    SkipSeparatorsAt(s, d, d + 2);
    StripAfterPrefix(s, d + 2);
    assert s[d + 2..] == rest;
  }

  // ------------------------------------------------------------------
  // Per-serving tables and the small predicates over names
  // ------------------------------------------------------------------

  const TSP_IN_TBSP: real := 3.0

  const PROTEIN_G_PER_SERV: seq<(string, int)> := [
    ("鶏むね肉", 100), ("鶏もも肉", 100), ("豚肉", 100), ("牛肉", 100), ("ひき肉", 100),
    ("鮭", 90), ("さば", 90), ("ツナ", 70), ("ベーコン", 30), ("ハム", 30), ("豆腐", 150),
    ("木綿豆腐", 150), ("絹ごし豆腐", 150), ("卵", 50)]

  const VEG_G_PER_SERV: seq<(string, int)> := [
    ("玉ねぎ", 50), ("ねぎ", 10), ("長ねぎ", 20), ("キャベツ", 80), ("にんじん", 40),
    ("じゃがいも", 80), ("なす", 60), ("ピーマン", 40), ("もやし", 100), ("ブロッコリー", 70),
    ("きのこ", 60), ("しめじ", 60), ("えのき", 60), ("トマト", 80), ("青菜", 70), ("小松菜", 70),
    ("ほうれん草", 70)]

  const COND_TSP_PER_SERV: seq<(string, real)> := [
    ("塩", 0.125), ("砂糖", 0.5), ("しょうゆ", 1.0), ("醤油", 1.0), ("みりん", 1.0), ("酒", 1.0),
    ("酢", 1.0), ("コチュジャン", 0.5), ("味噌", 1.5), ("味の素", 0.25), ("顆粒だし", 0.5)]

  const OIL_TSP_PER_SERV: seq<(string, real)> := [("サラダ油", 1.0), ("ごま油", 0.5), ("オリーブオイル", 1.0)]

  const PIECE_PER_SERV: seq<(string, string)> := [("卵", "1個"), ("にんにく", "0.5片"), ("生姜", "0.5片")]

  const SPICY_WORDS: seq<string> := ["一味", "七味", "豆板醤", "コチュジャン", "ラー油", "唐辛子", "粉唐辛子"]

  /** Words that make an unlisted ingredient "a pinch" rather than "to taste". */
  const PEPPER_WORDS: seq<string> := ["胡椒", "こしょう", "黒胡椒", "一味", "七味", "ラー油"]

  const CONDIMENT_KEYS: seq<string> := [
    "塩", "砂糖", "しょうゆ", "醤油", "みりん", "酒", "味噌", "酢", "ごま油", "オリーブオイル",
    "油", "バター", "だし", "顆粒だし"]

  predicate IsCondiment(name: string)
  {
    ContainsAny(name, CONDIMENT_KEYS)
  }

  predicate IsSpicy(name: string)
  {
    ContainsAny(name, SPICY_WORDS)
  }

  /** The classification is by substring: any name containing 油 counts as a
      condiment, whatever it is. */
  lemma OilWordMakesCondiment(name: string)
    requires Contains(name, "油")
    ensures IsCondiment(name)
  {
    assert CONDIMENT_KEYS[10] == "油";
  }

  /** _has_number: some `[0-9]+` occurs (only ASCII digits count). */
  predicate HasNumber(s: string)
  {
    SearchNumber(s, 0, true).Some?
  }

  /** A number is found exactly when an ASCII digit occurs. */
  lemma {:induction false} HasNumberIffDigit(s: string, i: nat)
    requires i <= |s|
    ensures SearchNumber(s, i, true).Some? <==> exists k :: i <= k < |s| && IsAsciiDigit(s[k])
    decreases |s| - i
  {
    if i < |s| {
      HasNumberIffDigit(s, i + 1);
      if IsAsciiDigit(s[i]) {
        assert ScanNumber(s, i, true).Some?;
      }
    }
  }

  // ------------------------------------------------------------------
  // Rendering spoons and grams
  // ------------------------------------------------------------------

  /** A spoon amount of `halves` half spoons: the prefix, then f"{halves / 2:g}"
      (see HalvesGIsFormatG). */
  function SpoonText(prefix: string, halves: nat): string
  {
    prefix + HalvesG(halves)
  }

  /** _round_tsp_to_pretty. */
  function RoundTspToPretty(tsp: real): (r: string)
    ensures r != []
    ensures tsp <= 0.15 <==> r == "少々"
  {
    if tsp <= 0.15 then "少々"
    else if tsp / TSP_IN_TBSP >= 1.0 then SpoonText("大さじ", RoundHalfEven(tsp / TSP_IN_TBSP * 2.0))
    else SpoonText("小さじ", RoundHalfEven(tsp * 2.0))
  }

  /** The rounding step _grams_to_pretty uses for a weight. */
  function GramStep(g: int): (step: int)
    ensures step == 10 || step == 25 || step == 50
  {
    if g < 60 then 10 else if g < 150 then 25 else 50
  }

  /** The prettified weight: a multiple of the step, at most half a step away. */
  function RoundedGrams(g: int): (p: int)
    ensures p % GramStep(g) == 0
    ensures -GramStep(g) <= 2 * (p - g) <= GramStep(g)
    ensures g >= 0 ==> p >= 0
  {
    var step := GramStep(g);
    var k := RoundHalfEven(g as real / step as real);
    assert k as real * step as real - g as real == step as real * (k as real - g as real / step as real);
    k * step
  }

  /** _grams_to_pretty. */
  function GramsToPretty(g: int): string
  {
    IntToString(RoundedGrams(g)) + "g"
  }

  /** The steps change at 60 g, so prettifying is not idempotent: 55 g becomes
      60 g, which then becomes 50 g. */
  lemma GramsToPrettyNotIdempotent()
    ensures RoundedGrams(55) == 60 && RoundedGrams(60) == 50
    ensures GramsToPretty(55) == "60g" && GramsToPretty(60) == "50g"
  {
    assert (55 as real / 10 as real).Floor == 5;
    assert (60 as real / 25 as real).Floor == 2;
    assert NatToString(6) == "6" && NatToString(5) == "5";
    assert NatToString(60) == NatToString(6) + [DigitChar(0)];
    assert NatToString(50) == NatToString(5) + [DigitChar(0)];
  }

  // ------------------------------------------------------------------
  // Guessing an amount from the tables
  // ------------------------------------------------------------------

  /** Python's s.replace(pat, ""), including the empty pattern, which changes nothing. */
  function Remove(s: string, pat: string): string
  {
    if pat == [] then s else ReplaceAll(s, pat, "")
  }

  /** The piece branch of _guess_amount: the number in the per-serving text
      scaled by the servings, followed by the rest of that text. */
  function PieceAmount(per: string, servings: int): (r: string)
    ensures r != []
  {
    var num := match SearchNumber(per, 0, true) case Some(v) => v case None => 1.0;
    var unit := Remove(per, RStrip(RStrip(FormatRepr(num), '0'), '.'));
    var total := num * servings as real;
    var gap := total - Trunc(total) as real;
    if -0.000001 < gap < 0.000001 then IntToString(Trunc(total)) + unit
    else FormatG(total) + unit
  }

  /** _guess_amount: the first table with a key inside the name decides, in the
      order pieces, protein, vegetables, oils, condiments. */
  function GuessAmount(name: string, servings: int): (r: string)
    ensures r != []
  {
    match ValueOfFirstKey(name, PIECE_PER_SERV)
    case Some(per) => PieceAmount(per, servings)
    case None => GuessByWeight(name, servings)
  }

  /** The protein and vegetable tables of _guess_amount, then the spoon tables. */
  function GuessByWeight(name: string, servings: int): (r: string)
    ensures r != []
  {
    match ValueOfFirstKey(name, PROTEIN_G_PER_SERV)
    case Some(g) => GramsToPretty(g * servings)
    case None =>
    match ValueOfFirstKey(name, VEG_G_PER_SERV)
    case Some(g) => GramsToPretty(g * servings)
    case None => GuessBySpoon(name, servings)
  }

  /** The oil and condiment tables of _guess_amount, then the fallbacks. */
  function GuessBySpoon(name: string, servings: int): (r: string)
    ensures r != []
  {
    match ScaledTsp(name, OIL_TSP_PER_SERV, servings)
    case Some(tsp) => RoundTspToPretty(tsp)
    case None =>
    match ScaledTsp(name, COND_TSP_PER_SERV, servings)
    case Some(tsp) => RoundTspToPretty(tsp)
    case None => if ContainsAny(name, PEPPER_WORDS) then "少々" else "適量"
  }

  /** The teaspoons per serving of the first key of the table found in the
      name, times the servings. */
  function ScaledTsp(name: string, table: seq<(string, real)>, servings: int): (r: Option<real>)
    ensures r.None? <==> FirstKey(name, table).None?
  {
    match ValueOfFirstKey(name, table)
    case Some(tsp) => Some(tsp * servings as real)
    case None => None
  }

  lemma ScaledTspOf(name: string, table: seq<(string, real)>, servings: int, k: nat)
    requires FirstKey(name, table) == Some(k)
    ensures ScaledTsp(name, table, servings).Some?
    ensures ScaledTsp(name, table, servings).value == table[k].1 * servings as real
  {
    assert ValueOfFirstKey(name, table) == Some(table[k].1);
  }

  /** A name in no table gets "少々" when it mentions pepper or chili, "適量" otherwise. */
  lemma GuessUnlisted(name: string, servings: int)
    requires forall k :: 0 <= k < |PIECE_PER_SERV| ==> !Contains(name, PIECE_PER_SERV[k].0)
    requires forall k :: 0 <= k < |PROTEIN_G_PER_SERV| ==> !Contains(name, PROTEIN_G_PER_SERV[k].0)
    requires forall k :: 0 <= k < |VEG_G_PER_SERV| ==> !Contains(name, VEG_G_PER_SERV[k].0)
    requires forall k :: 0 <= k < |OIL_TSP_PER_SERV| ==> !Contains(name, OIL_TSP_PER_SERV[k].0)
    requires forall k :: 0 <= k < |COND_TSP_PER_SERV| ==> !Contains(name, COND_TSP_PER_SERV[k].0)
    ensures GuessAmount(name, servings) == if ContainsAny(name, PEPPER_WORDS) then "少々" else "適量"
  {
  }

  /** The number in "1個" is 1. */
  lemma ScanOnePiece()
    ensures SearchNumber("1個", 0, true) == Some(1.0)
  {
    var per := "1個";
    assert DigitRunEnd(per, 1, true) == 1;
    assert DigitRunEnd(per, 0, true) == 1;
    assert per[0..1] == "1";
    assert DigitsValue("1") == 1 by {
      assert "1"[..0] == "";
    }
  }

  /** str(1.0).rstrip('0').rstrip('.') is "1", so the unit left of "1個" is "個". */
  lemma OnePieceUnit()
    ensures Remove("1個", RStrip(RStrip(FormatRepr(1.0), '0'), '.')) == "個"
  {
    assert FormatRepr(1.0) == "1.0" by {
      assert NatToString(1) == "1";
    }
    assert RStrip("1.0", '0') == "1." by {
      assert "1.0"[..2] == "1.";
    }
    assert RStrip("1.", '.') == "1" by {
      assert "1."[..1] == "1";
    }
    var per := "1個";
    assert per[..1] == "1" && per[1..] == "個";
    assert ReplaceAll("個", "1", "") == "個";
  }

  /** One egg per serving, counted as a whole number. */
  lemma PieceAmountEggs(servings: int)
    ensures PieceAmount("1個", servings) == IntToString(servings) + "個"
  {
    ScanOnePiece();
    OnePieceUnit();
    assert 1.0 * servings as real == servings as real;
    assert Trunc(servings as real) == servings;
  }

  /** Eggs are counted: one per serving. */
  lemma GuessEggs(name: string, servings: int)
    requires Contains(name, "卵")
    ensures GuessAmount(name, servings) == IntToString(servings) + "個"
  {
    assert FirstKey(name, PIECE_PER_SERV) == Some(0);
    PieceAmountEggs(servings);
  }

  lemma SoySauceNotPiece()
    ensures FirstKey("しょうゆ", PIECE_PER_SERV).None?
  {
    NoneOccur("しょうゆ", Keys(PIECE_PER_SERV), [0, 0, 0]);
  }

  lemma SoySauceNotProtein()
    ensures FirstKey("しょうゆ", PROTEIN_G_PER_SERV).None?
  {
    NoneOccur("しょうゆ", Keys(PROTEIN_G_PER_SERV), [0, 0, 0, 0, 0, 0, 0, 0, 0, 0, 0, 0, 0, 0]);
  }

  lemma SoySauceNotVegetable()
    ensures FirstKey("しょうゆ", VEG_G_PER_SERV).None?
  {
    NoneOccur("しょうゆ", Keys(VEG_G_PER_SERV), [0, 0, 0, 0, 0, 0, 0, 0, 0, 0, 0, 1, 0, 0, 0, 0, 0]);
  }

  lemma SoySauceNotOil()
    ensures FirstKey("しょうゆ", OIL_TSP_PER_SERV).None?
  {
    NoneOccur("しょうゆ", Keys(OIL_TSP_PER_SERV), [0, 0, 0]);
  }

  /** A name in none of the piece, protein and vegetable tables is measured by spoon. */
  lemma MeasuredBySpoon(name: string, servings: int)
    requires FirstKey(name, PIECE_PER_SERV).None?
    requires FirstKey(name, PROTEIN_G_PER_SERV).None? && FirstKey(name, VEG_G_PER_SERV).None?
    ensures GuessAmount(name, servings) == GuessBySpoon(name, servings)
  {
  }

  /** A name in no oil table is measured from its first condiment key. */
  lemma MeasuredAsCondiment(name: string, servings: int, tsp: real)
    requires FirstKey(name, OIL_TSP_PER_SERV).None?
    requires ScaledTsp(name, COND_TSP_PER_SERV, servings) == Some(tsp)
    ensures GuessBySpoon(name, servings) == RoundTspToPretty(tsp)
  {
  }

  /** A name with an oil key is measured from its first oil key. */
  lemma MeasuredAsOil(name: string, servings: int, tsp: real)
    requires ScaledTsp(name, OIL_TSP_PER_SERV, servings) == Some(tsp)
    ensures GuessBySpoon(name, servings) == RoundTspToPretty(tsp)
  {
  }

  /** A name whose first oil key is k is measured by rounding its scaled
      teaspoons tsp. */
  lemma SpoonOil(name: string, servings: int, k: nat, tsp: real)
    requires FirstKey(name, OIL_TSP_PER_SERV) == Some(k) && tsp == OIL_TSP_PER_SERV[k].1 * servings as real
    ensures GuessBySpoon(name, servings) == RoundTspToPretty(tsp)
  {
    ScaledTspOf(name, OIL_TSP_PER_SERV, servings, k);
    MeasuredAsOil(name, servings, tsp);
  }

  /** The same for a name in no oil table whose first condiment key is k. */
  lemma SpoonCondiment(name: string, servings: int, k: nat, tsp: real)
    requires FirstKey(name, OIL_TSP_PER_SERV).None? && FirstKey(name, COND_TSP_PER_SERV) == Some(k)
    requires tsp == COND_TSP_PER_SERV[k].1 * servings as real
    ensures GuessBySpoon(name, servings) == RoundTspToPretty(tsp)
  {
    ScaledTspOf(name, COND_TSP_PER_SERV, servings, k);
    MeasuredAsCondiment(name, servings, tsp);
  }

  /** A spoon guess r for tsp teaspoons reads back within a quarter spoon of
      tsp, or is "少々" when tsp is at most 0.15. */
  predicate SpoonGuessNear(r: string, tsp: real)
  {
    && (tsp <= 0.15 ==> r == "少々")
    && (tsp > 0.15 && tsp >= 3.0 ==>
          && AmountToUnitValue(r).0 == Tbsp
          && -2.25 <= 3.0 * AmountToUnitValue(r).1 - tsp <= 2.25
          && (tsp < 299997.0 ==> -0.75 <= 3.0 * AmountToUnitValue(r).1 - tsp <= 0.75))
    && (tsp > 0.15 && tsp < 3.0 ==> AmountToUnitValue(r).0 == Tsp && -0.25 <= AmountToUnitValue(r).1 - tsp <= 0.25)
  }

  lemma RoundTspNear(tsp: real, r: string)
    requires r == RoundTspToPretty(tsp)
    ensures SpoonGuessNear(r, tsp)
  {
    if tsp > 0.15 {
      RoundTspReadsBack(tsp);
    }
  }

  /** A name in none of the weighed tables whose first oil key is k gets a
      spoon amount near its scaled teaspoons. */
  lemma GuessOilReadsBack(name: string, servings: int, k: nat, tsp: real)
    requires FirstKey(name, PIECE_PER_SERV).None?
    requires FirstKey(name, PROTEIN_G_PER_SERV).None? && FirstKey(name, VEG_G_PER_SERV).None?
    requires FirstKey(name, OIL_TSP_PER_SERV) == Some(k) && tsp == OIL_TSP_PER_SERV[k].1 * servings as real
    ensures SpoonGuessNear(GuessAmount(name, servings), tsp)
  {
    MeasuredBySpoon(name, servings);
    SpoonOil(name, servings, k, tsp);
    RoundTspNear(tsp, GuessAmount(name, servings));
  }

  /** A name in none of the weighed tables and in no oil table, whose first
      condiment key is k, gets a spoon amount near its scaled teaspoons. */
  lemma GuessCondimentReadsBack(name: string, servings: int, k: nat, tsp: real)
    requires FirstKey(name, PIECE_PER_SERV).None?
    requires FirstKey(name, PROTEIN_G_PER_SERV).None? && FirstKey(name, VEG_G_PER_SERV).None?
    requires FirstKey(name, OIL_TSP_PER_SERV).None?
    requires FirstKey(name, COND_TSP_PER_SERV) == Some(k) && tsp == COND_TSP_PER_SERV[k].1 * servings as real
    ensures SpoonGuessNear(GuessAmount(name, servings), tsp)
  {
    MeasuredBySpoon(name, servings);
    SpoonCondiment(name, servings, k, tsp);
    RoundTspNear(tsp, GuessAmount(name, servings));
  }

  lemma SoySauceIsThirdCondiment()
    ensures FirstKey("しょうゆ", COND_TSP_PER_SERV) == Some(2)
  {
    var name := "しょうゆ";
    MissingChar(name, "塩", 0);
    MissingChar(name, "砂糖", 0);
    assert Contains(name, "しょうゆ");
  }

  /** Four teaspoons are one and a half tablespoons after half rounding. */
  lemma FourTeaspoons()
    ensures RoundTspToPretty(4.0) == "大さじ1.5"
  {
    assert (4.0 / 3.0 * 2.0).Floor == 2;
    assert RoundHalfEven(4.0 / TSP_IN_TBSP * 2.0) == 3;
    assert HalvesG(3) == "1.5" by {
      assert NatToString(1) == "1";
    }
  }

  /** Four servings of soy sauce take 4 tsp. */
  lemma SoySauceTspForFour()
    ensures ScaledTsp("しょうゆ", COND_TSP_PER_SERV, 4) == Some(4.0)
  {
    SoySauceIsThirdCondiment();
    ScaledTspOf("しょうゆ", COND_TSP_PER_SERV, 4, 2);
    assert COND_TSP_PER_SERV[2].1 == 1.0;
  }

  /** Four servings of soy sauce: 4 tsp round to one and a half tablespoons. */
  lemma GuessSoySauceForFour()
    ensures GuessAmount("しょうゆ", 4) == "大さじ1.5"
  {
    SoySauceNotPiece();
    SoySauceNotProtein();
    SoySauceNotVegetable();
    SoySauceNotOil();
    MeasuredBySpoon("しょうゆ", 4);
    SoySauceTspForFour();
    MeasuredAsCondiment("しょうゆ", 4, 4.0);
    FourTeaspoons();
  }

  // ------------------------------------------------------------------
  // Quantities written into names: "鶏むね肉 200g", "塩 少々"
  // ------------------------------------------------------------------

  const QTY_UNITS: seq<string> := ["g", "グラム", "kg", "㎏", "ml", "mL", "L", "cc", "カップ", "cup", "個", "片", "枚", "本"]

  /** The lookahead `(?=\s|$)` at e. */
  predicate AtBoundary(s: string, e: nat)
  {
    e == |s| || (e < |s| && IsSpace(s[e]))
  }

  /** The first unit, from index u of the list on, that starts at k and is
      followed by the lookahead: where it ends. */
  function UnitThenBoundary(s: string, k: nat, units: seq<string>, u: nat): (r: Option<nat>)
    requires k <= |s| && u <= |units|
    ensures r.Some? ==> k < r.value <= |s|
    decreases |units| - u
  {
    if u == |units| then None
    else if units[u] != [] && StartsAt(s, k, units[u]) && AtBoundary(s, k + |units[u]|) then Some(k + |units[u]|)
    else UnitThenBoundary(s, k, units, u + 1)
  }

  /** The quantity group, followed by the lookahead, tried at i: where the
      group ends. The alternatives are tried in the pattern's order. */
  function QtyTokenAt(s: string, i: nat): (r: Option<nat>)
    requires i <= |s|
    ensures r.Some? ==> i < r.value <= |s|
  {
    var spoon :=
      if StartsAt(s, i, "小さじ") || StartsAt(s, i, "大さじ") then
        match ScanNumber(s, SkipSpaces(s, i + 3), false)
        case Some(m) => if AtBoundary(s, m.0) then Some(m.0) else None
        case None => None
      else None;
    var counted :=
      match ScanNumber(s, i, false)
      case Some(m) => UnitThenBoundary(s, SkipSpaces(s, m.0), QTY_UNITS, 0)
      case None => None;
    if spoon.Some? then spoon
    else if counted.Some? then counted
    else if (StartsAt(s, i, "少々") || StartsAt(s, i, "適量")) && AtBoundary(s, i + 2) then Some(i + 2)
    else None
  }

  /** `(?:^|\s)` followed by the group, tried at p: the group's span. */
  function QtyMatchAt(s: string, p: nat): (r: Option<(nat, nat)>)
    requires p <= |s|
    ensures r.Some? ==> p <= r.value.0 < r.value.1 <= |s|
  {
    if p == 0 && QtyTokenAt(s, 0).Some? then Some((0, QtyTokenAt(s, 0).value))
    else if p < |s| && IsSpace(s[p]) && QtyTokenAt(s, p + 1).Some? then Some((p + 1, QtyTokenAt(s, p + 1).value))
    else None
  }

  /** re.search from p: the group of the leftmost match. */
  function SearchQty(s: string, p: nat): (r: Option<string>)
    requires p <= |s|
    decreases |s| - p
  {
    if p == |s| then None
    else match QtyMatchAt(s, p)
      case Some(m) => Some(s[m.0..m.1])
      case None => SearchQty(s, p + 1)
  }

  /** re.sub(" ") from p: each match, with the whitespace before it, becomes one space. */
  function ReplaceQty(s: string, p: nat): (r: string)
    requires p <= |s|
    decreases |s| - p
  {
    if p == |s| then []
    else match QtyMatchAt(s, p)
      case Some(m) => " " + ReplaceQty(s, m.1)
      case None => [s[p]] + ReplaceQty(s, p + 1)
  }

  /** re.sub(r'\s{2,}', ' '): each run of two or more whitespace characters becomes one space. */
  function CollapseSpaces(s: string): (r: string)
    ensures (forall k :: 0 <= k < |s| ==> !IsSpace(s[k])) ==> r == s
    decreases |s|
  {
    if |s| >= 2 && IsSpace(s[0]) && IsSpace(s[1]) then " " + CollapseSpaces(s[SkipSpaces(s, 0)..])
    else if s == [] then []
    else [s[0]] + CollapseSpaces(s[1..])
  }

  /** split_quantity_from_name: the name without its quantity, and the quantity. */
  function SplitQuantityFromName(name: string): (r: (string, Option<string>))
    ensures r.0 == [] ==> name == []
    ensures r.1.Some? ==> r.1.value != []
  {
    var qty := SearchQty(name, 0);
    assert qty.Some? ==> qty.value != [] by {
      SearchQtyNonEmpty(name, 0);
    }
    var base := CollapseSpaces(Strip(ReplaceQty(name, 0)));
    (if base == [] then name else base, qty)
  }

  lemma {:induction false} SearchQtyNonEmpty(s: string, p: nat)
    requires p <= |s|
    ensures SearchQty(s, p).Some? ==> SearchQty(s, p).value != []
    decreases |s| - p
  {
    if p < |s| && QtyMatchAt(s, p).None? {
      SearchQtyNonEmpty(s, p + 1);
    }
  }

  /** A quantity can only start with a digit or with 小, 大, 少 or 適. */
  lemma NoTokenAt(s: string, i: nat)
    requires i < |s| && !IsDigit(s[i]) && s[i] != '小' && s[i] != '大' && s[i] != '少' && s[i] != '適'
    ensures QtyTokenAt(s, i).None?
  {
    if i + 2 <= |s| {
      assert s[i..i + 2][0] == s[i];
    }
    if i + 3 <= |s| {
      assert s[i..i + 3][0] == s[i];
    }
  }

  lemma ReplaceStep(s: string, p: nat)
    requires p < |s| && QtyMatchAt(s, p).None?
    ensures ReplaceQty(s, p) == [s[p]] + ReplaceQty(s, p + 1)
  {
  }

  lemma SearchStep(s: string, p: nat)
    requires p < |s| && QtyMatchAt(s, p).None?
    ensures SearchQty(s, p) == SearchQty(s, p + 1)
  {
  }

  /** No match of the pattern starts in [p, q). */
  predicate NoQtyIn(s: string, p: nat, q: nat)
    requires p <= q <= |s|
    decreases q - p
  {
    p == q || (QtyMatchAt(s, p).None? && NoQtyIn(s, p + 1, q))
  }

  lemma {:induction false} NoQtyInAll(s: string, p: nat, q: nat)
    requires p <= q <= |s|
    requires forall j :: p <= j < q ==> QtyMatchAt(s, j).None?
    ensures NoQtyIn(s, p, q)
    decreases q - p
  {
    if p < q {
      NoQtyInAll(s, p + 1, q);
    }
  }

  /** A stretch without matches is copied unchanged ... */
  lemma {:induction false} ReplaceNoMatch(s: string, p: nat, q: nat)
    requires p <= q <= |s| && NoQtyIn(s, p, q)
    ensures ReplaceQty(s, p) == s[p..q] + ReplaceQty(s, q)
    decreases q - p
  {
    if p < q {
      ReplaceNoMatch(s, p + 1, q);
      ReplaceStep(s, p);
      SliceCons(s, p, q, ReplaceQty(s, q));
    } else {
      assert s[p..q] == [];
    }
  }

  /** ... and the search looks past it. */
  lemma {:induction false} SearchNoMatch(s: string, p: nat, q: nat)
    requires p <= q <= |s| && NoQtyIn(s, p, q)
    ensures SearchQty(s, p) == SearchQty(s, q)
    decreases q - p
  {
    if p < q {
      SearchNoMatch(s, p + 1, q);
      SearchStep(s, p);
    }
  }

  /** A name that has no whitespace and does not start like a quantity is kept as it is. */
  lemma SplitPlainName(name: string)
    requires forall k :: 0 <= k < |name| ==> !IsSpace(name[k])
    requires name != [] ==> !IsDigit(name[0]) && name[0] != '小' && name[0] != '大' && name[0] != '少' && name[0] != '適'
    ensures SplitQuantityFromName(name) == (name, None)
  {
    if name != [] {
      NoTokenAt(name, 0);
    }
    NoQtyInAll(name, 0, |name|);
    ReplaceNoMatch(name, 0, |name|);
    SearchNoMatch(name, 0, |name|);
    assert name[0..|name|] == name;
  }

  /** Digits running up to a final "g" form a counted quantity. */
  lemma GramsTokenAt(s: string, i: nat)
    requires i + 1 < |s| && s[|s| - 1] == 'g'
    requires forall k :: i <= k < |s| - 1 ==> IsAsciiDigit(s[k])
    ensures QtyTokenAt(s, i) == Some(|s|)
  {
    var k := |s| - 1;
    assert !StartsAt(s, i, "小さじ") && !StartsAt(s, i, "大さじ") by {
      if i + 3 <= |s| {
        assert s[i..i + 3][0] == s[i];
      }
    }
    DigitRunEndAt(s, i, k, false);
    assert ScanNumber(s, i, false).Some? && ScanNumber(s, i, false).value.0 == k;
    assert SkipSpaces(s, k) == k;
    assert s[k..k + 1] == "g";
    assert UnitThenBoundary(s, k, QTY_UNITS, 0) == Some(|s|);
  }

  /** The match after a space: the space goes with it, the group follows. */
  lemma GramsMatchAt(s: string, b: nat)
    requires 0 < b && b + 2 < |s| && s[b] == ' ' && s[|s| - 1] == 'g'
    requires forall k :: b + 1 <= k < |s| - 1 ==> IsAsciiDigit(s[k])
    ensures QtyMatchAt(s, b) == Some((b + 1, |s|))
    ensures ReplaceQty(s, b) == " "
    ensures SearchQty(s, b) == Some(s[b + 1..])
  {
    GramsTokenAt(s, b + 1);
    assert s[b + 1..|s|] == s[b + 1..];
  }

  /** Inside a word that has no whitespace and does not start like a quantity
      no match starts. */
  lemma NoQtyInWord(s: string, b: nat)
    requires 0 < b <= |s|
    requires forall k :: 0 <= k < b ==> !IsSpace(s[k])
    requires !IsDigit(s[0]) && s[0] != '小' && s[0] != '大' && s[0] != '少' && s[0] != '適'
    ensures NoQtyIn(s, 0, b)
  {
    NoTokenAt(s, 0);
    forall j | 0 <= j < b ensures QtyMatchAt(s, j).None? {
      assert !IsSpace(s[j]);
    }
    NoQtyInAll(s, 0, b);
  }

  /** A word followed by one space strips to the word. */
  lemma StripWordSpace(base: string)
    requires base != [] && forall k :: 0 <= k < |base| ==> !IsSpace(base[k])
    ensures Strip(base + " ") == base
  {
    var t := base + " ";
    assert t[0] == base[0];
    assert TrimStart(t) == t;
    assert SpacesBefore(t, |t|) == |base| by {
      assert t[|base| - 1] == base[|base| - 1];
    }
    assert t[..|base|] == base;
  }

  /** The scan of `<word> <digits>g`: the quantity is found after the space,
      and substituting leaves the word and a space. */
  lemma TrailingGramsScan(s: string, b: nat)
    requires 0 < b && b + 2 < |s| && s[b] == ' ' && s[|s| - 1] == 'g'
    requires forall k :: 0 <= k < b ==> !IsSpace(s[k])
    requires !IsDigit(s[0]) && s[0] != '小' && s[0] != '大' && s[0] != '少' && s[0] != '適'
    requires forall k :: b + 1 <= k < |s| - 1 ==> IsAsciiDigit(s[k])
    ensures SearchQty(s, 0) == Some(s[b + 1..])
    ensures ReplaceQty(s, 0) == s[..b] + " "
  {
    NoQtyInWord(s, b);
    ReplaceNoMatch(s, 0, b);
    SearchNoMatch(s, 0, b);
    GramsMatchAt(s, b);
    assert s[0..b] == s[..b];
  }

  /** A trailing weight `<name> <digits>g` is split off. */
  lemma SplitTrailingGrams(base: string, q: string)
    requires base != [] && forall k :: 0 <= k < |base| ==> !IsSpace(base[k])
    requires !IsDigit(base[0]) && base[0] != '小' && base[0] != '大' && base[0] != '少' && base[0] != '適'
    requires q != [] && forall k :: 0 <= k < |q| ==> IsAsciiDigit(q[k])
    ensures SplitQuantityFromName(base + " " + q + "g") == (base, Some(q + "g"))
  {
    var s := base + " " + q + "g";
    var b := |base|;
    forall k | 0 <= k < b ensures !IsSpace(s[k]) {
      assert s[k] == base[k];
    }
    forall k | b + 1 <= k < |s| - 1 ensures IsAsciiDigit(s[k]) {
      assert s[k] == q[k - b - 1];
    }
    TrailingGramsScan(s, b);
    assert s[..b] == base;
    assert s[b + 1..] == q + "g";
    assert ReplaceQty(s, 0) == base + " ";
    assert CollapseSpaces(Strip(base + " ")) == base by {
      StripWordSpace(base);
    }
  }

  /** The search finds nothing exactly when no match starts at or after p. */
  lemma {:induction false} SearchQtyNone(s: string, p: nat)
    requires p <= |s|
    ensures SearchQty(s, p).None? <==> NoQtyIn(s, p, |s|)
    decreases |s| - p
  {
    if p < |s| {
      SearchQtyNone(s, p + 1);
    }
  }

  /** What the search finds is the group of the leftmost match at or after p. */
  lemma {:induction false} SearchQtyFirst(s: string, p: nat)
    requires p <= |s| && SearchQty(s, p).Some?
    ensures exists q ::
              && p <= q < |s| && NoQtyIn(s, p, q) && QtyMatchAt(s, q).Some?
              && SearchQty(s, p).value == s[QtyMatchAt(s, q).value.0..QtyMatchAt(s, q).value.1]
    decreases |s| - p
  {
    if QtyMatchAt(s, p).None? {
      SearchQtyFirst(s, p + 1);
      var q :| p + 1 <= q < |s| && NoQtyIn(s, p + 1, q) && QtyMatchAt(s, q).Some?
        && SearchQty(s, p + 1).value == s[QtyMatchAt(s, q).value.0..QtyMatchAt(s, q).value.1];
      assert NoQtyIn(s, p, q);
    } else {
      assert NoQtyIn(s, p, p);
    }
  }

  /** split_quantity_from_name returns a quantity exactly when the pattern
      matches somewhere in the name, and then the group of its leftmost
      match; a name without a match comes back stripped, with its runs of
      whitespace collapsed, or whole when that leaves nothing. */
  lemma SplitQuantityFromNameSpec(name: string)
    ensures var r := SplitQuantityFromName(name);
      && (r.1.None? <==> NoQtyIn(name, 0, |name|))
      && (r.1.Some? ==>
            exists p ::
              && 0 <= p < |name| && NoQtyIn(name, 0, p) && QtyMatchAt(name, p).Some?
              && r.1.value == name[QtyMatchAt(name, p).value.0..QtyMatchAt(name, p).value.1])
      && (NoQtyIn(name, 0, |name|) ==>
            r == (if CollapseSpaces(Strip(name)) == [] then name else CollapseSpaces(Strip(name)), None))
  {
    SearchQtyNone(name, 0);
    if NoQtyIn(name, 0, |name|) {
      ReplaceNoMatch(name, 0, |name|);
      assert ReplaceQty(name, |name|) == [];
      assert name[0..|name|] + [] == name;
      assert ReplaceQty(name, 0) == name;
    } else {
      SearchQtyFirst(name, 0);
    }
  }

  /** A name that is nothing but a weight, `<digits>g`, is its own quantity
      and comes back whole as the base: the base need not be free of
      quantities. */
  lemma SplitBareGrams(q: string)
    requires q != [] && forall k :: 0 <= k < |q| ==> IsAsciiDigit(q[k])
    ensures SplitQuantityFromName(q + "g") == (q + "g", Some(q + "g"))
  {
    var s := q + "g";
    forall k | 0 <= k < |s| - 1 ensures IsAsciiDigit(s[k]) {
      assert s[k] == q[k];
    }
    GramsTokenAt(s, 0);
    assert QtyMatchAt(s, 0) == Some((0, |s|));
    assert s[0..|s|] == s;
    assert ReplaceQty(s, 0) == " ";
    assert Strip(" ") == [];
  }

  // ------------------------------------------------------------------
  // Amount strings
  // ------------------------------------------------------------------

  const ZERO_FORMS: seq<string> := ["小さじ0", "大さじ0", "0g", "0個", "0片", "0枚", "0本", "0cc"]

  /** Python truthiness of an optional string. */
  predicate Truthy(o: Option<string>)
  {
    o.Some? && o.value != []
  }

  /** sanitize_amount: strip, full-width point to ".", every ".0" deleted, and
      an amount that reads as zero replaced by "少々". */
  function SanitizeAmount(amount: Option<string>): (r: Option<string>)
    ensures r.None? <==> !Truthy(amount)
    ensures r.Some? ==> r.value !in ZERO_FORMS
  {
    if !Truthy(amount) then None
    else
      Some(PinchIfZero(ReplaceAll(ReplaceAll(Strip(amount.value), "．", "."), ".0", "")))
  }

  /** The last step of sanitize_amount: an amount that reads as zero becomes "少々". */
  function PinchIfZero(a: string): (r: string)
    ensures r !in ZERO_FORMS
    ensures a !in ZERO_FORMS ==> r == a
  {
    if a in ZERO_FORMS then "少々" else a
  }

  /** On an amount with no surrounding space and no full-width point, sanitising
      only deletes the ".0"s and replaces a zero form. */
  lemma SanitizeClean(a: string)
    requires a != [] && !IsSpace(a[0]) && !IsSpace(a[|a| - 1])
    requires !Contains(a, "．")
    ensures SanitizeAmount(Some(a)) == Some(PinchIfZero(ReplaceAll(a, ".0", "")))
  {
    CleanText(a);
  }

  lemma CleanText(a: string)
    requires a != [] && !IsSpace(a[0]) && !IsSpace(a[|a| - 1])
    requires !Contains(a, "．")
    ensures ReplaceAll(Strip(a), "．", ".") == a
  {
    StripUnchanged(a);
    ReplaceAbsent(a, "．", ".");
  }

  /** An amount that reads as zero becomes "少々". */
  lemma SanitizeZeroForms(z: string)
    requires z in ZERO_FORMS
    ensures SanitizeAmount(Some(z)) == Some("少々")
  {
    assert z != [] && !IsSpace(z[0]) && !IsSpace(z[|z| - 1]);
    assert forall k :: 0 <= k < |z| ==> z[k] != '．' && z[k] != '.';
    MissingChar(z, "．", 0);
    MissingChar(z, ".0", 0);
    SanitizeClean(z);
  }

  lemma DotZeroInside()
    ensures ReplaceAll("1.05g", ".0", "") == "15g"
  {
    assert ReplaceAll("5g", ".0", "") == "5g" by {
      MissingChar("5g", ".0", 0);
    }
    assert ReplaceAll(".05g", ".0", "") == "5g" by {
      assert ".05g"[..2] == ".0";
      assert ".05g"[2..] == "5g";
    }
    assert "1.05g"[..2][0] != ".0"[0];
    assert "1.05g"[1..] == ".05g";
  }

  lemma DotZeroAfterDot()
    ensures ReplaceAll("1..00", ".0", "") == "1.0"
  {
    assert ReplaceAll("0", ".0", "") == "0";
    assert ReplaceAll(".00", ".0", "") == "0" by {
      assert ".00"[..2] == ".0";
      assert ".00"[2..] == "0";
    }
    assert ReplaceAll("..00", ".0", "") == ".0" by {
      assert "..00"[..2][1] != ".0"[1];
      assert "..00"[1..] == ".00";
    }
    assert "1..00"[..2][0] != ".0"[0];
    assert "1..00"[1..] == "..00";
  }

  lemma DotZeroAtEnd()
    ensures ReplaceAll("1.0", ".0", "") == "1"
  {
    assert ReplaceAll(".0", ".0", "") == "" by {
      assert ".0"[..2] == ".0";
      assert ".0"[2..] == "";
    }
    assert "1.0"[..2][0] != ".0"[0];
    assert "1.0"[1..] == ".0";
  }

  /** Every ".0" goes, not only a trailing one: "1.05g" becomes "15g". */
  lemma SanitizeDropsInnerDotZero()
    ensures SanitizeAmount(Some("1.05g")) == Some("15g")
  {
    MissingChar("1.05g", "．", 0);
    SanitizeClean("1.05g");
    DotZeroInside();
    assert "15g" !in ZERO_FORMS;
  }

  lemma SanitizeDoubleDot()
    ensures SanitizeAmount(Some("1..00")) == Some("1.0")
  {
    MissingChar("1..00", "．", 0);
    SanitizeClean("1..00");
    DotZeroAfterDot();
    assert "1.0" !in ZERO_FORMS;
  }

  lemma SanitizeOnePointZero()
    ensures SanitizeAmount(Some("1.0")) == Some("1")
  {
    MissingChar("1.0", "．", 0);
    SanitizeClean("1.0");
    DotZeroAtEnd();
    assert "1" !in ZERO_FORMS;
  }

  /** Sanitising twice can differ from sanitising once: "1..00" becomes "1.0", then "1". */
  lemma SanitizeNotIdempotent()
    ensures SanitizeAmount(SanitizeAmount(Some("1..00"))) != SanitizeAmount(Some("1..00"))
  {
    SanitizeDoubleDot();
    SanitizeOnePointZero();
  }

  // ------------------------------------------------------------------
  // Units and values
  // ------------------------------------------------------------------

  /** The unit tags of amount_to_unit_value; NoUnit is the empty tag. */
  datatype Unit = Tbsp | Tsp | Gram | Piece | NoUnit

  /** The text amount_to_unit_value searches: full-width points made ASCII, stripped, lower-cased. */
  function Canonical(amount: string): string
  {
    ToLower(Strip(ReplaceAll(amount, "．", ".")))
  }

  /** amount_to_unit_value: the first of 大さじ, 小さじ, g, 個 that appears with a number. */
  function AmountToUnitValue(amount: string): (r: (Unit, real))
    ensures r.1 >= 0.0
    ensures r.0 == NoUnit ==> r.1 == 0.0
  {
    if amount == [] then (NoUnit, 0.0)
    else
      var a := Canonical(amount);
      match SearchPrefixedNumber(a, "大さじ", 0)
      case Some(v) => (Tbsp, v)
      case None =>
      match SearchPrefixedNumber(a, "小さじ", 0)
      case Some(v) => (Tsp, v)
      case None =>
      match SearchNumberWithUnit(a, ["g"], 0)
      case Some(v) => (Gram, v)
      case None =>
      match SearchNumberWithUnit(a, ["個"], 0)
      case Some(v) => (Piece, v)
      case None => (NoUnit, 0.0)
  }

  /** Characters of a replacement come from the source or from the replacement text. */
  lemma {:induction false} ReplaceAllChars(s: string, pat: string, rep: string)
    requires pat != []
    ensures forall c :: c in ReplaceAll(s, pat, rep) ==> c in s || c in rep
    decreases |s|
  {
    if |s| >= |pat| {
      ReplaceAllChars(s[|pat|..], pat, rep);
      ReplaceAllChars(s[1..], pat, rep);
      forall c | c in s[|pat|..] || c in s[1..] ensures c in s {
        if c in s[|pat|..] {
          var j :| 0 <= j < |s[|pat|..]| && s[|pat|..][j] == c;
          assert s[|pat| + j] == c;
        } else {
          var j :| 0 <= j < |s[1..]| && s[1..][j] == c;
          assert s[1 + j] == c;
        }
      }
    }
  }

  /** Text without decimal digits keeps none through canonicalisation. */
  lemma CanonicalNoDigit(amount: string)
    requires forall k :: 0 <= k < |amount| ==> !IsDigit(amount[k])
    ensures forall k :: 0 <= k < |Canonical(amount)| ==> !IsDigit(Canonical(amount)[k])
  {
    var a1 := ReplaceAll(amount, "．", ".");
    ReplaceAllChars(amount, "．", ".");
    forall k | 0 <= k < |a1| ensures !IsDigit(a1[k]) {
      assert a1[k] in a1;
    }
    var a2 := Strip(a1);
    assert TrimStart(a1) == a1[|a1| - |TrimStart(a1)|..];
    forall k | 0 <= k < |a2| ensures !IsDigit(a2[k]) {
      assert a2[k] == TrimStart(a1)[k] == a1[|a1| - |TrimStart(a1)| + k];
    }
  }

  /** An amount without any digit has no unit and value 0. */
  lemma NoDigitNoUnit(amount: string)
    requires forall k :: 0 <= k < |amount| ==> !IsDigit(amount[k])
    ensures AmountToUnitValue(amount) == (NoUnit, 0.0)
  {
    if amount != [] {
      var a := Canonical(amount);
      CanonicalNoDigit(amount);
      NoDigitNoNumber(a, "大さじ", ["g"], 0);
      NoDigitNoNumber(a, "小さじ", ["個"], 0);
    }
  }

  /** unit_value_to_amount. */
  function UnitValueToAmount(u: Unit, v: real): (r: string)
    ensures r != []
  {
    match u
    case Tbsp =>
      var h := RoundHalfEven(v * 2.0);
      if h <= 0 then "少々" else SpoonText("大さじ", h)
    case Tsp =>
      var h := RoundHalfEven(v * 2.0);
      if h <= 0 then "少々" else SpoonText("小さじ", h)
    case Gram =>
      if v <= 0.0 then "少々" else GramsToPretty(RoundHalfEven(v))
    case Piece =>
      var gap := v - Trunc(v) as real;
      if -0.000001 < gap < 0.000001 then IntToString(Trunc(v)) + "個" else FormatG(v) + "個"
    case NoUnit =>
      var s := SanitizeAmount(Some(FormatRepr(v)));
      if Truthy(s) then s.value else "適量"
  }

  /** Text without full-width points, capitals or surrounding whitespace is canonical. */
  lemma CanonicalIdentity(s: string)
    requires s != [] && !IsSpace(s[0]) && !IsSpace(s[|s| - 1])
    requires forall k :: 0 <= k < |s| ==> s[k] != '．' && !IsUpperAscii(s[k])
    ensures Canonical(s) == s
  {
    MissingChar(s, "．", 0);
    assert Strip(s) == s;
  }

  /** A rendered spoon amount is already in canonical form. */
  lemma SpoonTextCanonical(prefix: string, h: nat)
    requires prefix == "大さじ" || prefix == "小さじ"
    ensures Canonical(SpoonText(prefix, h)) == SpoonText(prefix, h)
  {
    NumberTextCanonical(prefix, HalvesG(h));
  }

  /** A spoon prefix followed by digits and points is canonical. */
  lemma NumberTextCanonical(prefix: string, f: string)
    requires prefix == "大さじ" || prefix == "小さじ"
    requires f != [] && IsAsciiDigit(f[|f| - 1])
    requires forall k :: 0 <= k < |f| ==> IsAsciiDigit(f[k]) || f[k] == '.'
    ensures Canonical(prefix + f) == prefix + f
  {
    var s := prefix + f;
    forall k | 0 <= k < |s| ensures s[k] != '．' && !IsUpperAscii(s[k]) {
      if k >= 3 {
        assert s[k] == f[k - 3];
      }
    }
    assert s[0] == prefix[0];
    assert s[|s| - 1] == f[|f| - 1];
    CanonicalIdentity(s);
  }

  /** The spoon prefix of a rendered amount is found with its value. */
  lemma SpoonTextFound(prefix: string, h: nat)
    requires prefix == "大さじ" || prefix == "小さじ"
    ensures SearchPrefixedNumber(SpoonText(prefix, h), prefix, 0) == Some(HalvesShown(h))
  {
    var f := HalvesG(h);
    var s := prefix + f;
    ScanHalvesG(prefix, h);
    assert s[0..3] == prefix;
    assert s[3] == f[0];
    assert SkipSpaces(s, 3) == 3;
    assert PrefixedNumberAt(s, 0, prefix) == Some(HalvesShown(h));
  }

  /** A teaspoon amount mentions no tablespoon. */
  lemma TeaspoonHasNoTablespoon(h: nat)
    ensures SearchPrefixedNumber(SpoonText("小さじ", h), "大さじ", 0) == None
  {
    var f := HalvesG(h);
    var s := "小さじ" + f;
    forall k | 0 <= k < |s| ensures s[k] != '大' {
      if k >= 3 {
        assert s[k] == f[k - 3];
      }
    }
    PrefixAbsent(s, "大さじ", 0);
  }

  /** A rendered spoon amount reads back with its unit and the value it
      shows, which is h / 2 below 100000 spoons. */
  lemma SpoonTextParses(prefix: string, h: nat)
    requires prefix == "大さじ" || prefix == "小さじ"
    ensures AmountToUnitValue(SpoonText(prefix, h)) == (if prefix == "大さじ" then Tbsp else Tsp, HalvesShown(h))
  {
    SpoonTextCanonical(prefix, h);
    SpoonTextFound(prefix, h);
    if prefix == "小さじ" {
      TeaspoonHasNoTablespoon(h);
    }
  }

  /** A positive spoon amount that is a multiple of one half survives
      rendering and parsing unchanged below 100000 spoons; from there it
      reads back rounded half to even to a whole spoon. */
  lemma SpoonRoundTrip(u: Unit, h: nat)
    requires u == Tbsp || u == Tsp
    requires h > 0
    ensures AmountToUnitValue(UnitValueToAmount(u, h as real / 2.0)) == (u, HalvesShown(h))
    ensures h < 200000 ==> AmountToUnitValue(UnitValueToAmount(u, h as real / 2.0)) == (u, h as real / 2.0)
  {
    var v := h as real / 2.0;
    assert v * 2.0 == h as real;
    assert RoundHalfEven(v * 2.0) == h;
    if u == Tbsp {
      assert UnitValueToAmount(u, v) == SpoonText("大さじ", h);
      SpoonTextParses("大さじ", h);
    } else {
      assert UnitValueToAmount(u, v) == SpoonText("小さじ", h);
      SpoonTextParses("小さじ", h);
    }
  }

  /** Rendering the half-rounded value again gives the same spoon text. */
  lemma SpoonRerenderStable(u: Unit, v: real)
    requires u == Tbsp || u == Tsp
    requires RoundHalfEven(v * 2.0) > 0
    ensures UnitValueToAmount(u, RoundHalfEven(v * 2.0) as real / 2.0) == UnitValueToAmount(u, v)
  {
    var h := RoundHalfEven(v * 2.0);
    var w := h as real / 2.0;
    assert RoundHalfEven(w * 2.0) == h by {
      assert w * 2.0 == h as real;
    }
    SpoonAmount(u, v);
    SpoonAmount(u, w);
  }

  /** The spoon branches of unit_value_to_amount. */
  lemma SpoonAmount(u: Unit, v: real)
    requires u == Tbsp || u == Tsp
    requires RoundHalfEven(v * 2.0) > 0
    ensures UnitValueToAmount(u, v) == SpoonText(if u == Tbsp then "大さじ" else "小さじ", RoundHalfEven(v * 2.0))
  {
  }

  /** _round_tsp_to_pretty reads back as the spoon it chose, within a quarter
      of that spoon of the exact amount; from 100000 tablespoons on, where
      f"{v:g}" drops the half, within three quarters of a tablespoon. */
  lemma RoundTspReadsBack(tsp: real)
    requires tsp > 0.15
    ensures var (u, v) := AmountToUnitValue(RoundTspToPretty(tsp));
      || (&& tsp >= 3.0 && u == Tbsp && -2.25 <= 3.0 * v - tsp <= 2.25
          && (tsp < 299997.0 ==> -0.75 <= 3.0 * v - tsp <= 0.75))
      || (tsp < 3.0 && u == Tsp && -0.25 <= v - tsp <= 0.25)
  {
    if tsp / TSP_IN_TBSP >= 1.0 {
      var h := RoundHalfEven(tsp / TSP_IN_TBSP * 2.0);
      assert h >= 2;
      SpoonTextParses("大さじ", h);
    } else {
      var h := RoundHalfEven(tsp * 2.0);
      assert h >= 0;
      if h == 0 {
        assert tsp * 2.0 <= 0.5;
      }
      SpoonTextParses("小さじ", h);
    }
  }

  // ------------------------------------------------------------------
  // Child mode
  // ------------------------------------------------------------------

  const GOES_ON_LATER: string := "少々（大人は後がけ）"

  /** adjust_child_friendly_amount. */
  function AdjustChildFriendlyAmount(name: string, amount: string, factor: real): (r: string)
    ensures amount == [] ==> r == []
    ensures amount != [] ==> r != []
    ensures amount != [] && IsSpicy(name) ==> r == GOES_ON_LATER
    ensures !IsSpicy(name) && !IsCondiment(name) ==> r == amount
    ensures AmountToUnitValue(amount).0 !in {Tbsp, Tsp, Gram} && !IsSpicy(name) ==> r == amount
  {
    if amount == [] then amount
    else
      var (u, v) := AmountToUnitValue(amount);
      if IsSpicy(name) then GOES_ON_LATER
      else if IsCondiment(name) && (u == Tbsp || u == Tsp || u == Gram) then UnitValueToAmount(u, v * factor)
      else amount
  }

  /** The characters of a rendered weight: digits, then the unit. */
  lemma GramTextChars(n: nat)
    ensures var s := NatToString(n) + "g";
      && IsAsciiDigit(s[0]) && s[|s| - 1] == 'g'
      && forall k :: 0 <= k < |s| ==> IsAsciiDigit(s[k]) || s[k] == 'g'
  {
    var q := NatToString(n);
    var s := q + "g";
    forall k | 0 <= k < |s| ensures IsAsciiDigit(s[k]) || s[k] == 'g' {
      if k < |q| {
        assert s[k] == q[k];
      }
    }
    assert s[0] == q[0];
  }

  lemma GramTextCanonical(n: nat)
    ensures Canonical(NatToString(n) + "g") == NatToString(n) + "g"
  {
    GramTextChars(n);
    CanonicalIdentity(NatToString(n) + "g");
  }

  lemma GramTextNoSpoon(n: nat)
    ensures SearchPrefixedNumber(NatToString(n) + "g", "大さじ", 0).None?
    ensures SearchPrefixedNumber(NatToString(n) + "g", "小さじ", 0).None?
  {
    var s := NatToString(n) + "g";
    GramTextChars(n);
    assert '大' !in s && '小' !in s;
    PrefixAbsent(s, "大さじ", 0);
    PrefixAbsent(s, "小さじ", 0);
  }

  lemma GramTextWeight(n: nat)
    ensures SearchNumberWithUnit(NatToString(n) + "g", ["g"], 0) == Some(n as real)
  {
    var q := NatToString(n);
    var s := q + "g";
    var d := |q|;
    forall k | 0 <= k < d ensures DigitOf(s[k], false) {
      assert s[k] == q[k];
    }
    DigitRunEndAt(s, 0, d, false);
    assert s[0..d] == q;
    assert ScanNumber(s, 0, false) == Some((d, n as real));
    assert SkipSpaces(s, d) == d;
    assert StartsAt(s, d, "g");
  }

  /** A rendered weight, str(n) + "g", reads back as n grams. */
  lemma GramTextParses(n: nat)
    ensures AmountToUnitValue(NatToString(n) + "g") == (Gram, n as real)
  {
    GramTextCanonical(n);
    GramTextNoSpoon(n);
    GramTextWeight(n);
  }

  /** A spoon amount r rendered from a value that rounds to h > 0 half
      spoons reads back as h half spoons below 100000 spoons, and as the
      whole spoon shown from there. */
  lemma ScaledSpoonReadsBack(r: string, u: Unit, w: real, h: nat)
    requires u == Tbsp || u == Tsp
    requires h == RoundHalfEven(w * 2.0) && h > 0 && r == UnitValueToAmount(u, w)
    ensures AmountToUnitValue(r) == (u, HalvesShown(h))
    ensures h < 200000 ==> AmountToUnitValue(r) == (u, h as real / 2.0)
  {
    SpoonRerenderStable(u, w);
    SpoonRoundTrip(u, h);
  }

  /** A weight r rendered from a positive value reads back as that value
      rounded, then prettified. */
  lemma ScaledGramsReadBack(r: string, w: real)
    requires w > 0.0 && r == UnitValueToAmount(Gram, w)
    ensures AmountToUnitValue(r) == (Gram, RoundedGrams(RoundHalfEven(w)) as real)
  {
    var p := RoundedGrams(RoundHalfEven(w));
    assert r == NatToString(p) + "g";
    GramTextParses(p);
  }

  /** A mild condiment measured in spoons or grams is re-rendered at the scaled value. */
  lemma AdjustScalesCondiment(name: string, amount: string, factor: real)
    requires amount != [] && IsCondiment(name) && !IsSpicy(name)
    requires AmountToUnitValue(amount).0 in {Tbsp, Tsp, Gram}
    ensures AdjustChildFriendlyAmount(name, amount, factor)
      == UnitValueToAmount(AmountToUnitValue(amount).0, AmountToUnitValue(amount).1 * factor)
  {
  }

  /** In child mode a mild condiment measured in spoons, scaled to w, which
      rounds to h half spoons, reads back, as r, in the same spoon at h half
      spoons (below 100000 spoons; the whole spoon shown from there), or
      becomes "少々" when h is not positive. */
  lemma AdjustedSpoonReadsBack(name: string, amount: string, factor: real, w: real, h: int, r: string)
    requires amount != [] && IsCondiment(name) && !IsSpicy(name)
    requires AmountToUnitValue(amount).0 == Tbsp || AmountToUnitValue(amount).0 == Tsp
    requires w == AmountToUnitValue(amount).1 * factor && h == RoundHalfEven(w * 2.0)
    requires r == AdjustChildFriendlyAmount(name, amount, factor)
    ensures h > 0 ==> AmountToUnitValue(r) == (AmountToUnitValue(amount).0, HalvesShown(h))
    ensures 0 < h < 200000 ==> AmountToUnitValue(r) == (AmountToUnitValue(amount).0, h as real / 2.0)
    ensures h <= 0 ==> r == "少々"
  {
    AdjustScalesCondiment(name, amount, factor);
    if h > 0 {
      ScaledSpoonReadsBack(r, AmountToUnitValue(amount).0, w, h);
    }
  }

  /** In child mode a mild condiment measured in grams, scaled to w, reads
      back, as r, as w rounded as _grams_to_pretty rounds it, or becomes
      "少々" when w is not positive. */
  lemma AdjustedGramsReadBack(name: string, amount: string, factor: real, w: real, r: string)
    requires amount != [] && IsCondiment(name) && !IsSpicy(name)
    requires AmountToUnitValue(amount).0 == Gram
    requires w == AmountToUnitValue(amount).1 * factor
    requires r == AdjustChildFriendlyAmount(name, amount, factor)
    ensures w > 0.0 ==> AmountToUnitValue(r) == (Gram, RoundedGrams(RoundHalfEven(w)) as real)
    ensures w <= 0.0 ==> r == "少々"
  {
    AdjustScalesCondiment(name, amount, factor);
    if w > 0.0 {
      ScaledGramsReadBack(r, w);
    }
  }

  lemma FourGramsCanonical()
    ensures Canonical("4g") == "4g"
  {
    MissingChar("4g", "．", 0);
    ReplaceAbsent("4g", "．", ".");
    StripUnchanged("4g");
  }

  lemma FourGramsNoSpoon()
    ensures SearchPrefixedNumber("4g", "大さじ", 0).None?
    ensures SearchPrefixedNumber("4g", "小さじ", 0).None?
  {
    PrefixAbsent("4g", "大さじ", 0);
    PrefixAbsent("4g", "小さじ", 0);
  }

  lemma FourGramsWeight()
    ensures SearchNumberWithUnit("4g", ["g"], 0) == Some(4.0)
  {
    var s := "4g";
    assert DigitRunEnd(s, 1, false) == 1;
    assert DigitRunEnd(s, 0, false) == 1;
    assert s[0..1] == "4";
    assert DigitsValue("4") == 4 by {
      assert "4"[..0] == "";
    }
    assert SkipSpaces(s, 1) == 1;
    assert StartsAt(s, 1, "g");
    assert NumberWithUnitAt(s, 0, ["g"]) == Some(4.0);
  }

  /** "4g" reads as four grams. */
  lemma FourGrams()
    ensures AmountToUnitValue("4g") == (Gram, 4.0)
  {
    FourGramsCanonical();
    FourGramsNoSpoon();
    FourGramsWeight();
  }

  /** Salt is a condiment and not a spicy one. */
  lemma SaltIsMild()
    ensures IsCondiment("塩") && !IsSpicy("塩")
  {
    NoneOccur("塩", SPICY_WORDS, [0, 0, 0, 0, 0, 0, 0]);
    assert Contains("塩", CONDIMENT_KEYS[0]);
  }

  /** 3.2 g rounds to 3 g, which the 10 g step shows as "0g". */
  lemma ScaledSaltShown()
    ensures UnitValueToAmount(Gram, 4.0 * 0.8) == "0g"
  {
    assert RoundHalfEven(4.0 * 0.8) == 3;
    assert RoundedGrams(3) == 0 by {
      assert (3 as real / 10 as real).Floor == 0;
    }
  }

  /** Child mode can produce a zero amount: 4 g of salt times 0.8 is shown as "0g". */
  lemma ChildSaltBecomesZeroGrams()
    ensures AdjustChildFriendlyAmount("塩", "4g", 0.8) == "0g"
  {
    FourGrams();
    SaltIsMild();
    ScaledSaltShown();
  }

  // ------------------------------------------------------------------
  // normalize_ingredients
  // ------------------------------------------------------------------

  /** Python's `x or y` on optional strings, ending in a plain string. */
  function OrElse(x: Option<string>, y: string): (r: string)
    ensures Truthy(x) ==> r == x.value
    ensures !Truthy(x) ==> r == y
  {
    if Truthy(x) then x.value else y
  }

  /** The amount normalize_ingredients starts from: the sanitised amount, else
      the quantity written into the name, else nothing. */
  function InitialAmount(it: Ingredient): string
  {
    OrElse(SanitizeAmount(it.amount), OrElse(SplitQuantityFromName(it.name).1, ""))
  }

  /** When normalize_ingredients falls back to _guess_amount. */
  predicate NeedsGuess(amt: string)
  {
    amt == [] || Contains(amt, "適量") || (!HasNumber(amt) && !Contains(amt, "少々"))
  }

  /** The amount before the child-mode adjustment. */
  function ChosenAmount(it: Ingredient, servings: int): (r: string)
    ensures r != [] && r !in ZERO_FORMS
  {
    var base := SplitQuantityFromName(it.name).0;
    var amt := InitialAmount(it);
    var amt := if NeedsGuess(amt) then GuessAmount(base, servings) else amt;
    OrElse(SanitizeAmount(Some(amt)), "適量")
  }

  /** One ingredient as normalize_ingredients rebuilds it. */
  function NormalizeIngredient(it: Ingredient, servings: int, childMode: bool, childFactor: real): Ingredient
  {
    var base := SplitQuantityFromName(it.name).0;
    var amt := ChosenAmount(it, servings);
    var amt := if childMode then AdjustChildFriendlyAmount(base, amt, childFactor) else amt;
    Ingredient(base, Some(amt), it.isOptional, it.substitution)
  }

  /** The name loses its quantity; the optional flag and the substitution are copied. */
  lemma NormalizeKeepsFields(it: Ingredient, servings: int, childMode: bool, childFactor: real)
    ensures NormalizeIngredient(it, servings, childMode, childFactor).name == SplitQuantityFromName(it.name).0
    ensures NormalizeIngredient(it, servings, childMode, childFactor).isOptional == it.isOptional
    ensures NormalizeIngredient(it, servings, childMode, childFactor).substitution == it.substitution
  {
  }

  /** Every normalised amount is a non-empty string, and outside child mode
      never one of the zero forms. */
  lemma NormalizeAmountUsable(it: Ingredient, servings: int, childMode: bool, childFactor: real)
    ensures NormalizeIngredient(it, servings, childMode, childFactor).amount.Some?
    ensures NormalizeIngredient(it, servings, childMode, childFactor).amount.value != []
    ensures !childMode ==> NormalizeIngredient(it, servings, childMode, childFactor).amount.value !in ZERO_FORMS
  {
  }

  /** An amount that needs no guess and that sanitising leaves alone is kept. */
  lemma NormalizeKeepsUsableAmount(it: Ingredient, servings: int, childFactor: real, a: string)
    requires SanitizeAmount(it.amount) == Some(a) && a != []
    requires !NeedsGuess(a) && SanitizeAmount(Some(a)) == Some(a)
    ensures NormalizeIngredient(it, servings, false, childFactor).amount == Some(a)
  {
    assert InitialAmount(it) == a;
  }

  /** Sanitising leaves an amount without surrounding space, full-width point,
      '0' and zero form alone. */
  lemma SanitizeKeepsClean(a: string)
    requires a != [] && !IsSpace(a[0]) && !IsSpace(a[|a| - 1])
    requires forall k :: 0 <= k < |a| ==> a[k] != '．' && a[k] != '0'
    requires a !in ZERO_FORMS
    ensures SanitizeAmount(Some(a)) == Some(a)
  {
    MissingChar(a, "．", 0);
    MissingChar(a, ".0", 1);
    SanitizeClean(a);
  }

  lemma SoySauceIsPlain()
    ensures SplitQuantityFromName("しょうゆ") == ("しょうゆ", None)
  {
    assert forall k :: 0 <= k < |"しょうゆ"| ==> !IsSpace("しょうゆ"[k]);
    SplitPlainName("しょうゆ");
  }

  lemma AsNeededIsKept()
    ensures SanitizeAmount(Some("適量")) == Some("適量")
    ensures NeedsGuess("適量")
  {
    SanitizeKeepsClean("適量");
    assert Contains("適量", "適量");
  }

  lemma TablespoonAndHalfIsKept()
    ensures SanitizeAmount(Some("大さじ1.5")) == Some("大さじ1.5")
  {
    SanitizeKeepsClean("大さじ1.5");
  }

  /** Soy sauce "as needed" for four becomes one and a half tablespoons. */
  lemma NormalizeSoySauceForFour()
    ensures NormalizeIngredient(Ingredient("しょうゆ", Some("適量"), false, None), 4, false, 1.0)
      == Ingredient("しょうゆ", Some("大さじ1.5"), false, None)
  {
    SoySauceIsPlain();
    AsNeededIsKept();
    GuessSoySauceForFour();
    TablespoonAndHalfIsKept();
  }

  /** The normalised list: each ingredient rebuilt, in order. */
  function NormalizeAll(ings: seq<Ingredient>, servings: int, childMode: bool, childFactor: real): (r: seq<Ingredient>)
    ensures |r| == |ings|
    decreases |ings|
  {
    if ings == [] then []
    else
      var last := NormalizeIngredient(ings[|ings| - 1], servings, childMode, childFactor);
      NormalizeAll(ings[..|ings| - 1], servings, childMode, childFactor) + [last]
  }

  /** The i-th normalised ingredient is the i-th ingredient rebuilt. */
  lemma {:induction false} NormalizeAllAt(ings: seq<Ingredient>, servings: int, childMode: bool, childFactor: real, i: nat)
    requires i < |ings|
    ensures NormalizeAll(ings, servings, childMode, childFactor)[i] == NormalizeIngredient(ings[i], servings, childMode, childFactor)
    decreases |ings|
  {
    if i < |ings| - 1 {
      NormalizeAllAt(ings[..|ings| - 1], servings, childMode, childFactor, i);
    }
  }

  /** normalize_ingredients: the list rebuilt one ingredient at a time, in order. */
  method NormalizeIngredients(ings: seq<Ingredient>, servings: int, childMode: bool, childFactor: real)
    returns (fixed: seq<Ingredient>)
    ensures fixed == NormalizeAll(ings, servings, childMode, childFactor)
  {
    fixed := [];
    for i := 0 to |ings|
      invariant fixed == NormalizeAll(ings[..i], servings, childMode, childFactor)
    {
      assert ings[..i + 1][..i] == ings[..i];
      fixed := fixed + [NormalizeIngredient(ings[i], servings, childMode, childFactor)];
    }
    assert ings[..|ings|] == ings;
  }
}
