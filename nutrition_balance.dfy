/** The nutrition-balance stage: category heuristics summed into rough totals, then a
    nutrition score with warnings and suggestions, from the model or from a
    rule-based fallback. */
module NutritionBalance {
  import opened Wrappers
  import opened Text
  import opened Schemas
  import opened ModelCall

  /** The rough amounts an ingredient adds, in whole units (kcal and grams). */
  datatype Totals = Totals(calories: int, protein: int, carbohydrates: int, fat: int)
  {
    function Plus(o: Totals): Totals {
      Totals(calories + o.calories, protein + o.protein, carbohydrates + o.carbohydrates, fat + o.fat)
    }
    predicate NonNegative() {
      calories >= 0 && protein >= 0 && carbohydrates >= 0 && fat >= 0
    }
  }

  /** The category branch an ingredient falls into: the first that matches. */
  datatype Branch = Produce | MeatFish | Dairy | Staple | Other

  /** The branch of a lower-cased category, tested in the agent's order. */
  function BranchOf(category: string): (b: Branch)
    ensures b == Produce <==> Contains(category, "野菜") || Contains(category, "果物")
    ensures b == MeatFish <==>
      !(Contains(category, "野菜") || Contains(category, "果物"))
      && (Contains(category, "肉") || Contains(category, "魚"))
    ensures b == Dairy <==>
      !(Contains(category, "野菜") || Contains(category, "果物"))
      && !(Contains(category, "肉") || Contains(category, "魚"))
      && Contains(category, "乳製品")
    ensures b == Staple <==>
      !(Contains(category, "野菜") || Contains(category, "果物"))
      && !(Contains(category, "肉") || Contains(category, "魚"))
      && !Contains(category, "乳製品")
      && (Contains(category, "主食") || Contains(category, "米"))
  {
    if Contains(category, "野菜") || Contains(category, "果物") then Produce
    else if Contains(category, "肉") || Contains(category, "魚") then MeatFish
    else if Contains(category, "乳製品") then Dairy
    else if Contains(category, "主食") || Contains(category, "米") then Staple
    else Other
  }

  /** The per-100g estimate added for a branch. */
  function Contribution(b: Branch): (t: Totals)
    ensures t.NonNegative() && t.carbohydrates % 5 == 0
    ensures t.protein > 0 <==> b == MeatFish || b == Dairy
  {
    match b
    case Produce => Totals(25, 0, 5, 0)
    case MeatFish => Totals(200, 20, 0, 10)
    case Dairy => Totals(150, 8, 0, 8)
    case Staple => Totals(350, 0, 75, 0)
    case Other => Totals(100, 0, 15, 0)
  }

  function IngredientBranch(i: Ingredient): Branch {
    BranchOf(Lower(i.category))
  }

  /** The totals `_calculate_basic_nutrition` accumulates over a list. */
  function SumTotals(xs: seq<Ingredient>): Totals {
    if |xs| == 0 then Totals(0, 0, 0, 0)
    else SumTotals(xs[..|xs| - 1]).Plus(Contribution(IngredientBranch(xs[|xs| - 1])))
  }

  /** `_calculate_basic_nutrition`: four accumulators updated per ingredient. */
  method CalculateBasicNutrition(ingredients: seq<Ingredient>) returns (t: Totals)
    ensures t == SumTotals(ingredients)
  {
    var calories, protein, carbs, fat := 0, 0, 0, 0;
    var i := 0;
    while i < |ingredients|
      invariant 0 <= i <= |ingredients|
      invariant Totals(calories, protein, carbs, fat) == SumTotals(ingredients[..i])
    {
      assert ingredients[..i + 1][..i] == ingredients[..i];
      var b := IngredientBranch(ingredients[i]);
      if b == Produce {
        calories := calories + 25;
        carbs := carbs + 5;
      } else if b == MeatFish {
        calories := calories + 200;
        protein := protein + 20;
        fat := fat + 10;
      } else if b == Dairy {
        calories := calories + 150;
        protein := protein + 8;
        fat := fat + 8;
      } else if b == Staple {
        calories := calories + 350;
        carbs := carbs + 75;
      } else {
        calories := calories + 100;
        carbs := carbs + 15;
      }
      i := i + 1;
    }
    assert ingredients[..i] == ingredients;
    t := Totals(calories, protein, carbs, fat);
  }

  lemma PlusAssociative(x: Totals, y: Totals, z: Totals)
    ensures x.Plus(y).Plus(z) == x.Plus(y.Plus(z))
  {
  }

  lemma SumTotalsSnoc(xs: seq<Ingredient>, x: Ingredient)
    ensures SumTotals(xs + [x]) == SumTotals(xs).Plus(Contribution(IngredientBranch(x)))
  {
    assert (xs + [x])[..|xs|] == xs;
  }

  /** The totals are additive over concatenation. */
  lemma {:induction false} SumTotalsAppend(a: seq<Ingredient>, b: seq<Ingredient>)
    ensures SumTotals(a + b) == SumTotals(a).Plus(SumTotals(b))
    decreases |b|
  {
    if |b| == 0 {
      assert a + b == a;
    } else {
      var b', x := b[..|b| - 1], b[|b| - 1];
      assert b == b' + [x];
      assert a + b == (a + b') + [x];
      SumTotalsAppend(a, b');
      var c := Contribution(IngredientBranch(x));
      SumTotalsSnoc(a + b', x);
      SumTotalsSnoc(b', x);
      PlusAssociative(SumTotals(a), SumTotals(b'), c);
    }
  }

  /** The totals are never negative, and the carbohydrates are a multiple of 5. */
  lemma {:induction false} SumTotalsShape(xs: seq<Ingredient>)
    ensures SumTotals(xs).NonNegative()
    ensures SumTotals(xs).carbohydrates % 5 == 0
  {
    if |xs| > 0 {
      SumTotalsShape(xs[..|xs| - 1]);
      var c := SumTotals(xs[..|xs| - 1]).carbohydrates;
      var d := Contribution(IngredientBranch(xs[|xs| - 1])).carbohydrates;
      MultipleOfFive(c, d);
    }
  }

  lemma MultipleOfFive(c: int, d: int)
    requires c % 5 == 0 && d % 5 == 0
    ensures (c + d) % 5 == 0
  {
    assert c == 5 * (c / 5) && d == 5 * (d / 5);
    assert c + d == 5 * (c / 5 + d / 5);
  }

  function CountBranch(xs: seq<Ingredient>, b: Branch): nat {
    if |xs| == 0 then 0
    else CountBranch(xs[..|xs| - 1], b) + (if IngredientBranch(xs[|xs| - 1]) == b then 1 else 0)
  }

  /** Protein comes only from meat/fish (20 each) and dairy (8 each). */
  lemma {:induction false} ProteinFromMeatFishAndDairy(xs: seq<Ingredient>)
    ensures SumTotals(xs).protein == 20 * CountBranch(xs, MeatFish) + 8 * CountBranch(xs, Dairy)
  {
    if |xs| > 0 {
      ProteinFromMeatFishAndDairy(xs[..|xs| - 1]);
    }
  }

  /** The distinct categories of the ingredients, as given. */
  function Categories(xs: seq<Ingredient>): set<string> {
    set k | 0 <= k < |xs| :: xs[k].category
  }

  function MinReal(a: real, b: real): real {
    if a <= b then a else b
  }

  /** The fallback score: ingredient diversity plus capped protein, carbohydrate and fat
      contributions, capped at 100. */
  function MockScore(categoryCount: nat, t: Totals): (s: real)
    ensures s <= 100.0
    ensures t.NonNegative() ==> s >= 0.0
  {
    var diversity := MinReal((categoryCount * 15) as real, 100.0);
    var protein := MinReal(t.protein as real * 2.0, 30.0);
    var carbs := MinReal(t.carbohydrates as real / 5.0, 30.0);
    var fat := MinReal(t.fat as real * 3.0, 30.0);
    MinReal(diversity + protein + carbs + fat, 100.0)
  }

  /** The score reaches 100 with seven or more categories, whatever the totals are. */
  lemma MockScoreSaturates(categoryCount: nat, t: Totals)
    requires categoryCount >= 7 && t.NonNegative()
    ensures MockScore(categoryCount, t) == 100.0
  {
  }

  const ProteinWarning: string := "タンパク質が不足しています"
  const ProteinSuggestion: string := "肉類や魚類を追加してください"
  const CarbsWarning: string := "炭水化物が不足しています"
  const CarbsSuggestion: string := "主食を追加してください"
  const VarietyWarning: string := "食材の種類が少ないです"
  const VarietySuggestion: string := "野菜や果物を追加してください"
  const BalancedMessage: string := "バランスの良い献立です"

  function RecommendedNutrients(): map<string, real> {
    map["protein" := 60.0, "carbohydrates" := 200.0, "fat" := 50.0, "fiber" := 25.0]
  }

  /** The suggestion paired with each warning. */
  function SuggestionFor(warning: string): string {
    if warning == ProteinWarning then ProteinSuggestion
    else if warning == CarbsWarning then CarbsSuggestion
    else VarietySuggestion
  }

  /** `_get_mock_recommendations`, as the result it returns. */
  function MockResult(ingredients: seq<Ingredient>, t: Totals): NutritionAnalysisResult {
    var cats := |Categories(ingredients)|;
    var warnings := (if t.protein < 30 then [ProteinWarning] else [])
      + (if t.carbohydrates < 100 then [CarbsWarning] else [])
      + (if cats < 4 then [VarietyWarning] else []);
    var suggestions := (if t.protein < 30 then [ProteinSuggestion] else [])
      + (if t.carbohydrates < 100 then [CarbsSuggestion] else [])
      + (if cats < 4 then [VarietySuggestion] else []);
    NutritionAnalysisResult(MockScore(cats, t), RecommendedNutrients(), warnings,
      if |warnings| == 0 then suggestions + [BalancedMessage] else suggestions)
  }

  /** Each warning fires exactly under its rule and comes with its suggestion at the
      same position; with no warning the only suggestion is the positive message. */
  lemma MockResultRules(ingredients: seq<Ingredient>, t: Totals)
    ensures var r := MockResult(ingredients, t);
      (ProteinWarning in r.warnings <==> t.protein < 30)
      && (CarbsWarning in r.warnings <==> t.carbohydrates < 100)
      && (VarietyWarning in r.warnings <==> |Categories(ingredients)| < 4)
      && (|r.warnings| > 0 ==>
            |r.suggestions| == |r.warnings|
            && forall k :: 0 <= k < |r.warnings| ==> r.suggestions[k] == SuggestionFor(r.warnings[k]))
      && (|r.warnings| == 0 ==> r.suggestions == [BalancedMessage])
      && r.recommendedNutrients.Keys == {"protein", "carbohydrates", "fat", "fiber"}
      && r.recommendedNutrients["protein"] == 60.0 && r.recommendedNutrients["carbohydrates"] == 200.0
      && r.recommendedNutrients["fat"] == 50.0 && r.recommendedNutrients["fiber"] == 25.0
  {
    assert ProteinWarning[0] != CarbsWarning[0] && CarbsWarning[0] != VarietyWarning[0];
    assert ProteinWarning[0] != VarietyWarning[0];
  }

  /** `_get_mock_recommendations`, appending to the two lists rule by rule. */
  method MockRecommendations(ingredients: seq<Ingredient>, t: Totals) returns (r: NutritionAnalysisResult)
    ensures r == MockResult(ingredients, t)
  {
    var cats := |Categories(ingredients)|;
    var warnings: seq<string> := [];
    var suggestions: seq<string> := [];
    if t.protein < 30 {
      warnings := warnings + [ProteinWarning];
      suggestions := suggestions + [ProteinSuggestion];
    }
    if t.carbohydrates < 100 {
      warnings := warnings + [CarbsWarning];
      suggestions := suggestions + [CarbsSuggestion];
    }
    if cats < 4 {
      warnings := warnings + [VarietyWarning];
      suggestions := suggestions + [VarietySuggestion];
    }
    if |warnings| == 0 {
      suggestions := suggestions + [BalancedMessage];
    }
    r := NutritionAnalysisResult(MockScore(cats, t), RecommendedNutrients(), warnings, suggestions);
  }

  /** A JSON field that should hold a list of strings. */
  datatype ListField = List(items: seq<string>) | NotAList

  /** The JSON object of the model's reply, as far as this stage reads it. */
  datatype NutritionData = NutritionData(
    nutritionScore: Option<real>,
    recommendedNutrients: Option<map<string, real>>,
    warnings: Option<ListField>,
    suggestions: Option<ListField>)

  /** `max(0, min(100, v))`. */
  function ClampScore(v: real): (r: real)
    ensures 0.0 <= r <= 100.0
    ensures 0.0 <= v <= 100.0 ==> r == v
    ensures v < 0.0 ==> r == 0.0
    ensures v > 100.0 ==> r == 100.0
  {
    if v > 100.0 then 100.0 else if v < 0.0 then 0.0 else v
  }

  /** A missing list is `[]`, and so is a value that is not a list. */
  function ListOrEmpty(f: Option<ListField>): (r: seq<string>)
    ensures f.Some? && f.value.List? ==> r == f.value.items
    ensures f.None? || f.value.NotAList? ==> r == []
  {
    match f
    case Some(List(items)) => items
    case _ => []
  }

  /** The cleaned result of a parsed reply: score defaults to 75 then is clamped. */
  function FromModel(d: NutritionData): (r: NutritionAnalysisResult)
    ensures 0.0 <= r.nutritionScore <= 100.0
    ensures d.nutritionScore.None? ==> r.nutritionScore == 75.0
    ensures d.nutritionScore.Some? ==> r.nutritionScore == ClampScore(d.nutritionScore.value)
    ensures r.recommendedNutrients == d.recommendedNutrients.GetOr(map[])
    ensures r.warnings == ListOrEmpty(d.warnings) && r.suggestions == ListOrEmpty(d.suggestions)
  {
    NutritionAnalysisResult(
      ClampScore(d.nutritionScore.GetOr(75.0)),
      d.recommendedNutrients.GetOr(map[]),
      ListOrEmpty(d.warnings),
      ListOrEmpty(d.suggestions))
  }

  /** `process`: totals, then the model's answer or the fallback. With no key the
      fallback is used without a call. */
  method Process(ingredients: seq<Ingredient>, hasKey: bool, oracle: Oracle<NutritionData>) returns (r: NutritionAnalysisResult)
    ensures var answer := oracle.Answer(hasKey);
      r == if answer.Some? then FromModel(answer.value) else MockResult(ingredients, SumTotals(ingredients))
    ensures ValidateNutritionResult(r).Ok?
  {
    var totals := CalculateBasicNutrition(ingredients);
    var answer := oracle.Answer(hasKey);
    if answer.Some? {
      r := FromModel(answer.value);
    } else {
      r := MockRecommendations(ingredients, totals);
      SumTotalsShape(ingredients);
    }
  }
}
