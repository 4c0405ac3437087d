/** The recipe-suggestion stage: a four-dish suggestion comes from the model or from a
    fixed fallback built around the first analysed ingredient; each dish is then
    turned into a meal item whose ingredients are resolved against the analysed
    ingredients by exact name. */
module RecipeSuggestion {
  import opened Wrappers
  import opened Seqs
  import opened Errors
  import opened Schemas
  import opened ModelCall

  /** One entry of a dish's "ingredients" list; `None` is a missing key. */
  datatype IngredientData = IngredientData(
    name: Option<string>,
    quantity: Option<string> := None,
    unit: Option<string> := None,
    available: Option<bool> := None,
    priority: Option<string> := None)

  datatype RecipeData = RecipeData(steps: Option<seq<string>>, tips: Option<seq<string>>)

  datatype NutritionData = NutritionData(
    calories: Option<real>, protein: Option<real>, carbohydrates: Option<real>, fat: Option<real>)

  /** One dish of the suggestion. */
  datatype DishData = DishData(
    name: Option<string>,
    description: Option<string>,
    cookingTime: Option<int>,
    difficulty: Option<string>,
    ingredients: Option<seq<IngredientData>>,
    recipe: Option<RecipeData>,
    nutritionInfo: Option<NutritionData>)

  /** The whole suggestion object. */
  datatype SuggestionData = SuggestionData(
    mainDish: Option<DishData>,
    sideDish: Option<DishData>,
    soup: Option<DishData>,
    rice: Option<DishData>,
    totalCookingTime: Option<int>,
    difficulty: Option<string>,
    nutritionScore: Option<real>,
    confidence: Option<real>)

  function KeyMissing(key: string): Exception {
    Builtin(KeyError, key)
  }

  /** The fallback's filter compares the upper-case member name with lower-case
      strings. */
  function NameIsUrgentOrSoon(): Ingredient -> bool {
    (i: Ingredient) => i.priority.Name() == "urgent" || i.priority.Name() == "soon"
  }

  /** That filter never keeps anything. */
  lemma PriorityNameFilterEmpty(xs: seq<Ingredient>)
    ensures Filter(xs, NameIsUrgentOrSoon()) == []
  {
    forall k | 0 <= k < |xs| ensures !NameIsUrgentOrSoon()(xs[k]) {
      var n := xs[k].priority.Name();
      assert n[0] != 'u' && n[0] != 's';
    }
    FilterNone(xs, NameIsUrgentOrSoon());
  }

  function FixedDish(name: string, description: string, time: int, ingredient: IngredientData,
                     steps: seq<string>, tips: seq<string>, nutrition: (real, real, real, real)): DishData {
    DishData(Some(name), Some(description), Some(time), Some("easy"), Some([ingredient]),
      Some(RecipeData(Some(steps), Some(tips))),
      Some(NutritionData(Some(nutrition.0), Some(nutrition.1), Some(nutrition.2), Some(nutrition.3))))
  }

  /** `_get_mock_recipes`: the main ingredient is the first of the urgent/soon filter,
      else of the first three analysed ingredients. */
  function MockRecipes(analysed: seq<Ingredient>): SuggestionData {
    var preferred := Filter(analysed, NameIsUrgentOrSoon());
    var candidates := if |preferred| > 0 then preferred else analysed[..if |analysed| < 3 then |analysed| else 3];
    var main: Option<Ingredient> := if |candidates| > 0 then Some(candidates[0]) else None;
    var mainName := if main.Some? then main.value.name + "の炒め物" else "野菜炒め";
    var mainDesc := if main.Some? then main.value.name + "を使った栄養満点の炒め物" else "色とりどりの野菜を使った炒め物";
    var mainIngredient := IngredientData(
      Some(if main.Some? then main.value.name else "野菜"), Some("適量"), Some("g"), Some(true),
      Some(if main.Some? then main.value.priority.Name() else "fresh"));
    SuggestionData(
      Some(FixedDish(mainName, mainDesc, 15, mainIngredient,
        ["材料を切る", "フライパンで炒める", "調味料で味付けする"],
        ["強火で短時間で炒める", "最後に醤油を加える"], (200.0, 15.0, 10.0, 8.0))),
      Some(FixedDish("サラダ", "新鮮な野菜のサラダ", 5,
        IngredientData(Some("レタス"), Some("1玉"), Some("玉"), Some(true), Some("fresh")),
        ["野菜を洗う", "適当な大きさに切る", "ドレッシングをかける"],
        ["水気をよく切る", "食べる直前にドレッシングをかける"], (50.0, 2.0, 8.0, 1.0))),
      Some(FixedDish("味噌汁", "具沢山の味噌汁", 10,
        IngredientData(Some("豆腐"), Some("1/2丁"), Some("丁"), Some(true), Some("fresh")),
        ["出汁を取る", "具材を入れる", "味噌を溶かす"],
        ["味噌は最後に入れる", "沸騰させない"], (80.0, 5.0, 6.0, 3.0))),
      Some(FixedDish("白米", "ふっくらとした白米", 30,
        IngredientData(Some("米"), Some("2合"), Some("合"), Some(true), Some("long_term")),
        ["米を洗う", "水加減を調整する", "炊飯器で炊く"],
        ["しっかりと研ぐ", "水加減を正確に"], (300.0, 6.0, 65.0, 1.0))),
      Some(30), Some("easy"), Some(80.0), Some(0.8))
  }

  /** `next(ing for ing in available if ing.name == name)`. */
  function FirstByName(available: seq<Ingredient>, name: string): (r: Option<Ingredient>)
    ensures r.Some? ==> r.value.name == name
    ensures r.Some? ==>
      exists k :: 0 <= k < |available| && available[k] == r.value && (forall j :: 0 <= j < k ==> available[j].name != name)
    ensures r.None? ==> forall k :: 0 <= k < |available| ==> available[k].name != name
  {
    if |available| == 0 then None
    else if available[0].name == name then Some(available[0])
    else
      var r := FirstByName(available[1..], name);
      if r.Some? then
        ghost var k :| 0 <= k < |available[1..]| && available[1..][k] == r.value
          && forall j :: 0 <= j < k ==> available[1..][j].name != name;
        assert available[k + 1] == r.value;
        r
      else r
  }

  /** One suggested ingredient: copied from the first available ingredient of the same
      name with quantity, unit and availability overridden, or else built new. */
  function ResolveIngredient(d: IngredientData, available: seq<Ingredient>): (r: Result<Ingredient, Exception>)
    ensures d.name.None? ==> r == Err(KeyMissing("name"))
    ensures r.Ok? ==> d.name.Some? && r.value.name == d.name.value
    ensures d.name.Some? && FirstByName(available, d.name.value).Some? ==>
      var a := FirstByName(available, d.name.value).value;
      r == Ok(a.(quantity := d.quantity.GetOr(a.quantity), unit := d.unit.GetOr(a.unit),
                 available := d.available.GetOr(true)))
    ensures d.name.Some? && FirstByName(available, d.name.value).None? ==>
      (r.Ok? <==> ParsePriority(d.priority.GetOr("fresh")).Some?)
      && (r.Ok? ==> r.value.quantity == d.quantity.GetOr("適量") && r.value.unit == d.unit.GetOr("g")
                    && r.value.available == d.available.GetOr(false)
                    && r.value.shoppingRequired == !r.value.available
                    && r.value.category == "その他" && r.value.productId.None?)
  {
    match d.name
    case None => Err(KeyMissing("name"))
    case Some(name) =>
      match FirstByName(available, name)
      case Some(a) =>
        Ok(a.(quantity := d.quantity.GetOr(a.quantity), unit := d.unit.GetOr(a.unit),
              available := d.available.GetOr(true)))
      case None =>
        match ParsePriority(d.priority.GetOr("fresh"))
        case None => Err(Builtin(ValueError, "not a valid ExpiryPriority"))
        case Some(p) =>
          var isAvailable := d.available.GetOr(false);
          Ok(Ingredient(name := name, quantity := d.quantity.GetOr("適量"), unit := d.unit.GetOr("g"),
            available := isAvailable, shoppingRequired := !isAvailable, priority := p, category := "その他"))
  }

  /** All suggested ingredients in order, stopping at the first that fails. */
  function ResolveAll(ds: seq<IngredientData>, available: seq<Ingredient>): (r: Result<seq<Ingredient>, Exception>)
    ensures r.Ok? ==> |r.value| == |ds|
    ensures r.Ok? ==> forall k :: 0 <= k < |ds| ==> ResolveIngredient(ds[k], available) == Ok(r.value[k])
    ensures r.Ok? <==> forall k :: 0 <= k < |ds| ==> ResolveIngredient(ds[k], available).Ok?
  {
    if |ds| == 0 then Ok([])
    else match ResolveAll(ds[..|ds| - 1], available)
      case Err(e) => Err(e)
      case Ok(prefix) =>
        match ResolveIngredient(ds[|ds| - 1], available)
        case Err(e) => Err(e)
        case Ok(i) => Ok(prefix + [i])
  }

  /** `[RecipeStep(step_number=i+1, description=step) for i, step in enumerate(steps)]`. */
  function NumberSteps(steps: seq<string>): (r: seq<RecipeStep>)
    ensures |r| == |steps|
    ensures forall k :: 0 <= k < |steps| ==> r[k].stepNumber == k + 1 && r[k].description == steps[k]
  {
    seq(|steps|, k requires 0 <= k < |steps| => RecipeStep(k + 1, steps[k]))
  }

  /** `float(nutrition_info.get(key, 0))` for the four amounts. */
  function NutritionFrom(n: Option<NutritionData>): (r: NutritionInfo)
    ensures n.None? ==> r == NutritionInfo(0.0, 0.0, 0.0, 0.0)
    ensures n.Some? ==> r.calories == n.value.calories.GetOr(0.0) && r.protein == n.value.protein.GetOr(0.0)
    ensures n.Some? ==> r.carbohydrates == n.value.carbohydrates.GetOr(0.0) && r.fat == n.value.fat.GetOr(0.0)
  {
    match n
    case None => NutritionInfo(0.0, 0.0, 0.0, 0.0)
    case Some(d) => NutritionInfo(d.calories.GetOr(0.0), d.protein.GetOr(0.0), d.carbohydrates.GetOr(0.0), d.fat.GetOr(0.0))
  }

  function RecipeOf(d: DishData): RecipeData {
    d.recipe.GetOr(RecipeData(None, None))
  }

  /** `_create_meal_item`, as the item it returns or the exception it raises: first the
      ingredients, then the difficulty, then the nutrition and recipe validation. */
  function MealItemSpec(d: DishData, category: MealCategory, available: seq<Ingredient>): Result<MealItem, Exception> {
    match ResolveAll(d.ingredients.GetOr([]), available)
    case Err(e) => Err(e)
    case Ok(ingredients) =>
      var cookingTime := d.cookingTime.GetOr(30);
      match ParseDifficulty(d.difficulty.GetOr("easy"))
      case None => Err(Builtin(ValueError, "not a valid DifficultyLevel"))
      case Some(difficulty) =>
        var nutrition := NutritionFrom(d.nutritionInfo);
        if !nutrition.Valid() then Err(ValidationFailure("nutrition_info"))
        else if cookingTime < 1 then Err(ValidationFailure("cooking_time"))
        else
          var recipe := Recipe(NumberSteps(RecipeOf(d).steps.GetOr([])), cookingTime, 10, difficulty,
            RecipeOf(d).tips.GetOr([]), 4, nutrition);
          Ok(MealItem(d.name.GetOr(""), category, d.description.GetOr(""), ingredients, recipe,
            cookingTime, difficulty, nutrition))
  }

  /** A built meal item is valid, has one ingredient per suggested ingredient in order,
      steps numbered from 1, and the defaults for missing fields. */
  lemma MealItemSpecShape(d: DishData, category: MealCategory, available: seq<Ingredient>)
    ensures var r := MealItemSpec(d, category, available);
      r.Ok? ==>
        r.value.Valid() && r.value.category == category
        && |r.value.ingredients| == |d.ingredients.GetOr([])|
        && (forall k :: 0 <= k < |r.value.ingredients| ==>
              ResolveIngredient(d.ingredients.GetOr([])[k], available) == Ok(r.value.ingredients[k]))
        && (forall k :: 0 <= k < |r.value.recipe.steps| ==> r.value.recipe.steps[k].stepNumber == k + 1)
        && r.value.cookingTime == d.cookingTime.GetOr(30)
        && (d.difficulty.None? ==> r.value.difficulty == Easy)
    ensures var r := MealItemSpec(d, category, available);
      (ResolveAll(d.ingredients.GetOr([]), available).Ok? && ParseDifficulty(d.difficulty.GetOr("easy")).Some?
       && NutritionFrom(d.nutritionInfo).Valid() && d.cookingTime.GetOr(30) >= 1) ==> r.Ok?
  {
  }

  /** `_create_meal_item`: the ingredients are resolved one by one in a loop. */
  method CreateMealItem(d: DishData, category: MealCategory, available: seq<Ingredient>) returns (r: Result<MealItem, Exception>)
    ensures r == MealItemSpec(d, category, available)
  {
    var ds := d.ingredients.GetOr([]);
    var ingredients: seq<Ingredient> := [];
    var i := 0;
    while i < |ds|
      invariant 0 <= i <= |ds|
      invariant ResolveAll(ds[..i], available) == Ok(ingredients)
    {
      assert ds[..i + 1][..i] == ds[..i];
      var resolved := ResolveIngredient(ds[i], available);
      if resolved.Err? {
        r := Err(resolved.error);
        ResolveAllStopsAtFailure(ds, available, i);
        return;
      }
      ingredients := ingredients + [resolved.value];
      i := i + 1;
    }
    assert ds[..i] == ds;
    var cookingTime := d.cookingTime.GetOr(30);
    var difficulty := ParseDifficulty(d.difficulty.GetOr("easy"));
    if difficulty.None? {
      r := Err(Builtin(ValueError, "not a valid DifficultyLevel"));
      return;
    }
    var nutrition := NutritionFrom(d.nutritionInfo);
    if !nutrition.Valid() {
      r := Err(ValidationFailure("nutrition_info"));
      return;
    }
    if cookingTime < 1 {
      r := Err(ValidationFailure("cooking_time"));
      return;
    }
    var recipe := Recipe(NumberSteps(RecipeOf(d).steps.GetOr([])), cookingTime, 10, difficulty.value,
      RecipeOf(d).tips.GetOr([]), 4, nutrition);
    r := Ok(MealItem(d.name.GetOr(""), category, d.description.GetOr(""), ingredients, recipe,
      cookingTime, difficulty.value, nutrition));
  }

  /** When every earlier ingredient resolved and ingredient `i` fails, the whole list
      fails with its error. */
  lemma {:induction false} ResolveAllStopsAtFailure(ds: seq<IngredientData>, available: seq<Ingredient>, i: nat)
    requires i < |ds| && ResolveAll(ds[..i], available).Ok?
    requires ResolveIngredient(ds[i], available).Err?
    ensures ResolveAll(ds, available) == Err(ResolveIngredient(ds[i], available).error)
    decreases |ds|
  {
    if i == |ds| - 1 {
      assert ds[..|ds| - 1] == ds[..i];
    } else {
      assert ds[..|ds| - 1][..i] == ds[..i];
      ResolveAllStopsAtFailure(ds[..|ds| - 1], available, i);
    }
  }

  /** The suggestion turned into the stage's result, or the exception `process` lets
      escape: a missing key is a `KeyError`, a bad difficulty a `ValueError`. */
  function ResultSpec(s: SuggestionData, available: seq<Ingredient>): Result<RecipeSuggestionResult, Exception> {
    if s.mainDish.None? then Err(KeyMissing("main_dish"))
    else match MealItemSpec(s.mainDish.value, Main, available)
    case Err(e) => Err(e)
    case Ok(main) =>
      if s.sideDish.None? then Err(KeyMissing("side_dish"))
      else match MealItemSpec(s.sideDish.value, Side, available)
      case Err(e) => Err(e)
      case Ok(side) =>
        if s.soup.None? then Err(KeyMissing("soup"))
        else match MealItemSpec(s.soup.value, Soup, available)
        case Err(e) => Err(e)
        case Ok(soup) =>
          if s.rice.None? then Err(KeyMissing("rice"))
          else match MealItemSpec(s.rice.value, Rice, available)
          case Err(e) => Err(e)
          case Ok(rice) =>
            if s.totalCookingTime.None? then Err(KeyMissing("total_cooking_time"))
            else if s.difficulty.None? then Err(KeyMissing("difficulty"))
            else match ParseDifficulty(s.difficulty.value)
            case None => Err(Builtin(ValueError, "not a valid DifficultyLevel"))
            case Some(difficulty) =>
              if s.nutritionScore.None? then Err(KeyMissing("nutrition_score"))
              else if s.confidence.None? then Err(KeyMissing("confidence"))
              else Ok(RecipeSuggestionResult(main, side, soup, rice, s.totalCookingTime.value,
                difficulty, s.nutritionScore.value, s.confidence.value))
  }

  /** The suggestion `process` works from: the model's, or the fallback. */
  function Suggestion(analysed: seq<Ingredient>, hasKey: bool, oracle: Oracle<SuggestionData>): SuggestionData {
    var answer := oracle.Answer(hasKey);
    if answer.Some? then answer.value else MockRecipes(analysed)
  }

  /** `process`: build the four meal items, then the summary fields. */
  method Process(analysed: seq<Ingredient>, hasKey: bool, oracle: Oracle<SuggestionData>) returns (r: Result<RecipeSuggestionResult, Exception>)
    ensures r == ResultSpec(Suggestion(analysed, hasKey, oracle), analysed)
  {
    var s := Suggestion(analysed, hasKey, oracle);
    if s.mainDish.None? {
      return Err(KeyMissing("main_dish"));
    }
    var main := CreateMealItem(s.mainDish.value, Main, analysed);
    if main.Err? {
      return Err(main.error);
    }
    if s.sideDish.None? {
      return Err(KeyMissing("side_dish"));
    }
    var side := CreateMealItem(s.sideDish.value, Side, analysed);
    if side.Err? {
      return Err(side.error);
    }
    if s.soup.None? {
      return Err(KeyMissing("soup"));
    }
    var soup := CreateMealItem(s.soup.value, Soup, analysed);
    if soup.Err? {
      return Err(soup.error);
    }
    if s.rice.None? {
      return Err(KeyMissing("rice"));
    }
    var rice := CreateMealItem(s.rice.value, Rice, analysed);
    if rice.Err? {
      return Err(rice.error);
    }
    if s.totalCookingTime.None? {
      return Err(KeyMissing("total_cooking_time"));
    }
    if s.difficulty.None? {
      return Err(KeyMissing("difficulty"));
    }
    var difficulty := ParseDifficulty(s.difficulty.value);
    if difficulty.None? {
      return Err(Builtin(ValueError, "not a valid DifficultyLevel"));
    }
    if s.nutritionScore.None? {
      return Err(KeyMissing("nutrition_score"));
    }
    if s.confidence.None? {
      return Err(KeyMissing("confidence"));
    }
    r := Ok(RecipeSuggestionResult(main.value, side.value, soup.value, rice.value, s.totalCookingTime.value,
      difficulty.value, s.nutritionScore.value, s.confidence.value));
  }

  /** Without a model the stage always succeeds: the main dish is named after the
      first analysed ingredient (or is "野菜炒め"), the dishes take 15, 5, 10 and 30
      minutes, but the reported total is 30, not their sum. */
  lemma MockSuggestionSucceeds(analysed: seq<Ingredient>)
    ensures var r := ResultSpec(MockRecipes(analysed), analysed);
      r.Ok?
      && r.value.mainDish.name == (if |analysed| > 0 then analysed[0].name + "の炒め物" else "野菜炒め")
      && r.value.mainDish.cookingTime == 15 && r.value.sideDish.cookingTime == 5
      && r.value.soup.cookingTime == 10 && r.value.rice.cookingTime == 30
      && r.value.totalCookingTime == 30
      && r.value.difficulty == Easy && r.value.nutritionScore == 80.0 && r.value.confidence == 0.8
  {
    MockDishesBuilt(analysed);
  }

  /** A dish whose ingredients resolve, whose difficulty parses, whose nutrition is valid
      and whose time is positive is built, keeping its name and time. */
  lemma MealItemBuilt(d: DishData, category: MealCategory, available: seq<Ingredient>)
    requires ResolveAll(d.ingredients.GetOr([]), available).Ok?
    requires ParseDifficulty(d.difficulty.GetOr("easy")).Some?
    requires NutritionFrom(d.nutritionInfo).Valid() && d.cookingTime.GetOr(30) >= 1
    ensures MealItemSpec(d, category, available).Ok?
    ensures MealItemSpec(d, category, available).value.name == d.name.GetOr("")
    ensures MealItemSpec(d, category, available).value.cookingTime == d.cookingTime.GetOr(30)
  {
  }

  /** The four rule-based dishes are built with 15, 5, 10 and 30 minutes. */
  lemma MockDishesBuilt(analysed: seq<Ingredient>)
    ensures var s := MockRecipes(analysed);
      s.mainDish.Some? && s.sideDish.Some? && s.soup.Some? && s.rice.Some?
      && MealItemSpec(s.mainDish.value, Main, analysed).Ok?
      && MealItemSpec(s.mainDish.value, Main, analysed).value.cookingTime == 15
      && MealItemSpec(s.mainDish.value, Main, analysed).value.name == s.mainDish.value.name.GetOr("")
      && MealItemSpec(s.sideDish.value, Side, analysed).Ok?
      && MealItemSpec(s.sideDish.value, Side, analysed).value.cookingTime == 5
      && MealItemSpec(s.soup.value, Soup, analysed).Ok?
      && MealItemSpec(s.soup.value, Soup, analysed).value.cookingTime == 10
      && MealItemSpec(s.rice.value, Rice, analysed).Ok?
      && MealItemSpec(s.rice.value, Rice, analysed).value.cookingTime == 30
  {
    MockIngredientsResolve(analysed);
    var s := MockRecipes(analysed);
    MealItemBuilt(s.mainDish.value, Main, analysed);
    MealItemBuilt(s.sideDish.value, Side, analysed);
    MealItemBuilt(s.soup.value, Soup, analysed);
    MealItemBuilt(s.rice.value, Rice, analysed);
  }

  /** Every ingredient of the four rule-based dishes resolves against the analysis. */
  lemma MockIngredientsResolve(analysed: seq<Ingredient>)
    ensures var s := MockRecipes(analysed);
      s.mainDish.Some? && s.mainDish.value.ingredients.Some?
      && s.sideDish.Some? && s.sideDish.value.ingredients.Some?
      && s.soup.Some? && s.soup.value.ingredients.Some?
      && s.rice.Some? && s.rice.value.ingredients.Some?
      && ResolveAll(s.mainDish.value.ingredients.value, analysed).Ok?
      && ResolveAll(s.sideDish.value.ingredients.value, analysed).Ok?
      && ResolveAll(s.soup.value.ingredients.value, analysed).Ok?
      && ResolveAll(s.rice.value.ingredients.value, analysed).Ok?
  {
    PriorityNameFilterEmpty(analysed);
    var s := MockRecipes(analysed);
    var main := s.mainDish.value.ingredients.value[0];
    if |analysed| > 0 {
      assert analysed[..if |analysed| < 3 then |analysed| else 3][0] == analysed[0];
      assert FirstByName(analysed, analysed[0].name).Some?;
    }
    assert ResolveIngredient(main, analysed).Ok?;
  }
}
