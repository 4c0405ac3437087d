/** The service that runs the agents one after another to build a meal plan, derives
    a shopping list from a plan, and re-plans after feedback. What the agents ask of the
    outside world (model keys and replies, the clock, the image calls) is gathered in a
    `World`, one per planning run. */
module MealPlanningService {
  import opened Wrappers
  import opened Text
  import opened Seqs
  import opened Errors
  import opened Schemas
  import opened ModelCall
  import Ingredients = IngredientAnalysis
  import Nutrition = NutritionBalance
  import Recipes = RecipeSuggestion
  import Cooking = CookingOptimization
  import Themes = MealTheme
  import Images = ImageGeneration

  /** Everything one planning run learns from outside: whether a model key is set, the
      model's reply at each stage, the clock, the image settings and the outcome of
      each dish's image call. */
  datatype World = World(
    hasKey: bool,
    recommendations: Oracle<Ingredients.RecommendationsData>,
    nutrition: Oracle<Nutrition.NutritionData>,
    suggestion: Oracle<Recipes.SuggestionData>,
    optimization: Oracle<Cooking.OptimizationReply>,
    theme: Oracle<Themes.ThemeReply>,
    now: Timestamp,
    month: int,
    openAiKey: Images.SettingLookup,
    attempts: seq<Images.Attempt>,
    digest: string -> string,
    elapsed: real)
  {
    /** A clock month, and one image attempt for each of the four dishes. */
    predicate Valid() {
      1 <= month <= 12 && |attempts| == 4
    }
  }

  /** The stages in the order the service runs them. */
  const Order: seq<Stage> :=
    [IngredientAnalysis, NutritionBalance, RecipeSuggestion, CookingOptimization, MealTheme, ImageGeneration]

  lemma OrderSplits()
    ensures Order == Order[..3] + [CookingOptimization, MealTheme, ImageGeneration]
    ensures Order[..3] == [IngredientAnalysis, NutritionBalance, RecipeSuggestion]
  {
  }

  /** The style dictionary the service hands to the image stage. Its first key is
      `style`, which the prompt does not read, so the mood falls back to its default. */
  const ServiceStyle: Images.ImageStyle := Images.ImageStyle(None, Some("natural"), Some("professional"))

  // ---- what each stage yields

  function Analysed(request: MealPlanningRequest): seq<Ingredient> {
    Ingredients.SortByPriority(Ingredients.Convert(request.refrigeratorItems))
  }

  function NutritionOf(analysed: seq<Ingredient>, w: World): NutritionAnalysisResult {
    var answer := w.nutrition.Answer(w.hasKey);
    if answer.Some? then Nutrition.FromModel(answer.value)
    else Nutrition.MockResult(analysed, Nutrition.SumTotals(analysed))
  }

  function SuggestionOf(analysed: seq<Ingredient>, w: World): Result<RecipeSuggestionResult, Exception> {
    Recipes.ResultSpec(Recipes.Suggestion(analysed, w.hasKey, w.suggestion), analysed)
  }

  /** The URLs the image stage returns, or `None` when it raises. */
  function ImageUrls(dishes: seq<MealItem>, theme: MealThemeResult, w: World): Option<seq<string>>
    requires |w.attempts| == |dishes|
  {
    match w.openAiKey
    case Undeclared => None
    case Declared(key) =>
      Some(seq(|dishes|, i requires 0 <= i < |dishes| =>
        if key.GetOr("") != "" then Images.AiImage(dishes[i], theme, ServiceStyle, w.hasKey, w.attempts[i], w.digest).url
        else Images.MockImage(dishes[i]).url))
  }

  /** `urls[i] if len(urls) > i else None`. */
  function UrlAt(urls: seq<string>, i: nat): (u: Option<string>)
    ensures u.Some? <==> i < |urls|
    ensures u.Some? ==> u.value == urls[i]
  {
    if |urls| > i then Some(urls[i]) else None
  }

  /** The four dishes after the image step: untouched when it raised, otherwise each
      one's `image_url` overwritten by position. */
  function Illustrated(s: RecipeSuggestionResult, urls: Option<seq<string>>): RecipeSuggestionResult {
    match urls
    case None => s
    case Some(u) =>
      s.(mainDish := s.mainDish.(imageUrl := UrlAt(u, 0)),
         sideDish := s.sideDish.(imageUrl := UrlAt(u, 1)),
         soup := s.soup.(imageUrl := UrlAt(u, 2)),
         rice := s.rice.(imageUrl := UrlAt(u, 3)))
  }

  /** The two places where the service as written and its evident intent part ways:
      how stage 5 spells the rule-based level, and whether a meal item has an
      `image_url` field for step 6 to assign. */
  datatype Build = Build(spell: DifficultyLevel -> string, imageField: bool)

  /** As written: the level spelled by member name, and no `image_url` on `MealItem`,
      so step 6's first assignment raises `ValueError`. */
  const AsWritten: Build := Build(Themes.AsWrittenSpelling(), false)

  /** Corrected: the level spelled by value, and an `image_url` field to assign. */
  const Corrected: Build := Build(Themes.CorrectedSpelling(), true)

  /** Stage 5 on the suggested dishes, the rule-based level spelled as `build` says. */
  function ThemeOf(s: RecipeSuggestionResult, w: World, build: Build): Result<MealThemeResult, Exception>
    requires w.Valid()
  {
    Themes.ThemeWith(s.Dishes(), w.month, w.now, w.now, w.theme.Answer(w.hasKey), build.spell)
  }

  /** The dishes after step 6: illustrated when the items have the field to assign,
      untouched when the first assignment raises. */
  function Pictured(s: RecipeSuggestionResult, theme: MealThemeResult, w: World, build: Build): RecipeSuggestionResult
    requires w.Valid()
  {
    if build.imageField then Illustrated(s, ImageUrls(s.Dishes(), theme, w)) else s
  }

  /** Stages 4 to 6 and the plan, once the dishes `s` are suggested. Cooking and theme
      both receive the dishes as suggested, not the optimised ones. */
  function Assemble(request: MealPlanningRequest, w: World, s: RecipeSuggestionResult,
                    nutrition: NutritionAnalysisResult, build: Build): Result<MealPlan, Exception>
    requires w.Valid()
  {
    match Cooking.Chosen(s.Dishes(), w.hasKey, w.optimization)
    case Err(e) => Err(e)
    case Ok(o) =>
      match ThemeOf(s, w, build)
      case Err(e) => Err(e)
      case Ok(t) =>
        var d := Pictured(s, t, w, build);
        ValidateMealPlan(MealPlan(request.householdId, w.now, Suggested, d.mainDish, d.sideDish, d.soup, d.rice,
                                  o.totalTime, s.difficulty, nutrition.nutritionScore, s.confidence))
  }

  /** The plan the service assembles, before its own error wrapping. */
  function PlanSpec(request: MealPlanningRequest, w: World, build: Build): Result<MealPlan, Exception>
    requires w.Valid()
  {
    var analysed := Analysed(request);
    match SuggestionOf(analysed, w)
    case Err(e) => Err(e)
    case Ok(s) => Assemble(request, w, s, NutritionOf(analysed, w), build)
  }

  /** The stages started after the recipe suggestion succeeded with `s`. */
  function LaterStages(w: World, s: RecipeSuggestionResult, build: Build): seq<Stage>
    requires w.Valid()
  {
    if Cooking.Chosen(s.Dishes(), w.hasKey, w.optimization).Err? then [CookingOptimization]
    else if ThemeOf(s, w, build).Err? then [CookingOptimization, MealTheme]
    else [CookingOptimization, MealTheme, ImageGeneration]
  }

  /** The stages that ran: the first three always do; a failure stops the run. */
  function StagesRun(request: MealPlanningRequest, w: World, build: Build): seq<Stage>
    requires w.Valid()
  {
    match SuggestionOf(Analysed(request), w)
    case Err(_) => Order[..3]
    case Ok(s) => Order[..3] + LaterStages(w, s, build)
  }

  /** `MealPlanningException(f"Failed to generate meal plan: {e}", "MEAL_PLANNING_FAILED", 500)`. */
  function PlanningFailure(e: Exception): (f: Exception)
    ensures f.App? && f.app.cls == MealPlanningError
    ensures f.app.errorCode == "MEAL_PLANNING_FAILED" && f.app.statusCode == 500
    ensures f.app.message == "Failed to generate meal plan: " + e.Message()
  {
    App(NewMealPlanningException("Failed to generate meal plan: " + e.Message(), "MEAL_PLANNING_FAILED", 500))
  }

  /** What `suggest_meal_plan` returns or raises. */
  function Outcome(request: MealPlanningRequest, w: World, build: Build): Result<MealPlan, Exception>
    requires w.Valid()
  {
    match PlanSpec(request, w, build)
    case Ok(p) => Ok(p)
    case Err(e) => Err(PlanningFailure(e))
  }

  // ---- suggest_meal_plan

  /** Step 6: ask for images and copy them onto the dishes; any failure is swallowed and
      the dishes stay as they were. Without an `image_url` field on the items the first
      copy raises, so the dishes stay as they were whatever the image stage returned. */
  method AddImages(s: RecipeSuggestionResult, theme: MealThemeResult, w: World, imageField: bool)
    returns (d: RecipeSuggestionResult)
    requires w.Valid()
    ensures imageField ==> d == Illustrated(s, ImageUrls(s.Dishes(), theme, w))
    ensures !imageField ==> d == s
  {
    var images := Images.Process(s.Dishes(), theme, ServiceStyle, w.openAiKey, w.hasKey, w.attempts, w.digest, w.elapsed);
    if images.Err? || !imageField {
      return s;
    }
    var urls := images.value.imageUrls;
    var expected := ImageUrls(s.Dishes(), theme, w);
    assert expected.Some?;
    forall i | 0 <= i < 4
      ensures urls[i] == expected.value[i]
    {
      var im := Images.Image(urls[i], images.value.imageMetadata[i]);
      assert im.url == urls[i];
    }
    assert urls == expected.value;
    d := s.(mainDish := s.mainDish.(imageUrl := UrlAt(urls, 0)),
            sideDish := s.sideDish.(imageUrl := UrlAt(urls, 1)),
            soup := s.soup.(imageUrl := UrlAt(urls, 2)),
            rice := s.rice.(imageUrl := UrlAt(urls, 3)));
  }

  /** Steps 1 and 2: analyse the refrigerator, then the nutrition of what it holds. */
  method AnalyseInputs(request: MealPlanningRequest, w: World) returns (analysed: seq<Ingredient>, nutrition: NutritionAnalysisResult)
    ensures analysed == Analysed(request)
    ensures nutrition == NutritionOf(analysed, w)
  {
    var ingredients := Ingredients.Process(request.refrigeratorItems, w.hasKey, w.recommendations);
    analysed := ingredients.analyzedIngredients;
    nutrition := Nutrition.Process(analysed, w.hasKey, w.nutrition);
  }

  /** Stages 4 to 6 and the plan's own validation. */
  method Finish(request: MealPlanningRequest, w: World, s: RecipeSuggestionResult, nutrition: NutritionAnalysisResult)
    returns (r: Result<MealPlan, Exception>, ran: seq<Stage>)
    requires w.Valid()
    ensures r == Assemble(request, w, s, nutrition, AsWritten)
    ensures ran == LaterStages(w, s, AsWritten)
  {
    ran := [CookingOptimization];
    var cooking := Cooking.Process(s.Dishes(), w.hasKey, w.optimization);
    if cooking.Err? {
      return Err(cooking.error), ran;
    }
    assert Cooking.Chosen(s.Dishes(), w.hasKey, w.optimization).Ok?;
    ran := [CookingOptimization, MealTheme];
    var theme := Themes.Process(s.Dishes(), w.month, w.now, w.now, w.hasKey, w.theme);
    if theme.Err? {
      return Err(theme.error), ran;
    }
    ran := [CookingOptimization, MealTheme, ImageGeneration];
    var d := AddImages(s, theme.value, w, AsWritten.imageField);
    AssembleWhenStagesSucceed(request, w, s, nutrition, theme.value, AsWritten);
    r := ValidateMealPlan(MealPlan(request.householdId, w.now, Suggested, d.mainDish, d.sideDish, d.soup, d.rice,
                                   cooking.value.totalTime, s.difficulty, nutrition.nutritionScore, s.confidence));
  }

  /** Once stages 4 and 5 succeed, the plan is the validated plan of the illustrated
      dishes. */
  lemma AssembleWhenStagesSucceed(request: MealPlanningRequest, w: World, s: RecipeSuggestionResult,
                                  nutrition: NutritionAnalysisResult, theme: MealThemeResult,
                                  build: Build)
    requires w.Valid()
    requires Cooking.Chosen(s.Dishes(), w.hasKey, w.optimization).Ok?
    requires ThemeOf(s, w, build) == Ok(theme)
    ensures var d := Pictured(s, theme, w, build);
      Assemble(request, w, s, nutrition, build)
        == ValidateMealPlan(MealPlan(request.householdId, w.now, Suggested, d.mainDish, d.sideDish, d.soup, d.rice,
                                     Cooking.Chosen(s.Dishes(), w.hasKey, w.optimization).value.totalTime,
                                     s.difficulty, nutrition.nutritionScore, s.confidence))
  {
  }

  /** A run starts a prefix of the six stages, at least the first three; it starts all
      six when it succeeds, and any failure is reported as `MEAL_PLANNING_FAILED`. */
  lemma StagesRunShape(request: MealPlanningRequest, w: World, build: Build)
    requires w.Valid()
    ensures StagesRun(request, w, build) <= Order && |StagesRun(request, w, build)| >= 3
    ensures Outcome(request, w, build).Ok? ==> StagesRun(request, w, build) == Order
    ensures |StagesRun(request, w, build)| < |Order| ==> Outcome(request, w, build).Err?
    ensures Outcome(request, w, build).Err? ==>
      Outcome(request, w, build).error.App? && Outcome(request, w, build).error.app.errorCode == "MEAL_PLANNING_FAILED"
      && Outcome(request, w, build).error.app.statusCode == 500
  {
    StagesRunPrefix(request, w, build);
    SuccessRanAll(request, w, build);
  }

  lemma StagesRunPrefix(request: MealPlanningRequest, w: World, build: Build)
    requires w.Valid()
    ensures StagesRun(request, w, build) <= Order && |StagesRun(request, w, build)| >= 3
  {
    OrderSplits();
  }

  lemma SuccessRanAll(request: MealPlanningRequest, w: World, build: Build)
    requires w.Valid()
    ensures Outcome(request, w, build).Ok? ==> StagesRun(request, w, build) == Order
  {
    OrderSplits();
    match SuggestionOf(Analysed(request), w)
    case Err(_) =>
    case Ok(s) =>
      var nutrition := NutritionOf(Analysed(request), w);
      assert PlanSpec(request, w, build) == Assemble(request, w, s, nutrition, build);
      if Assemble(request, w, s, nutrition, build).Ok? {
        AssembledRanAll(request, w, s, nutrition, build);
      }
  }

  /** A plan is assembled only after stages 4 to 6 have all started. */
  lemma AssembledRanAll(request: MealPlanningRequest, w: World, s: RecipeSuggestionResult,
                        nutrition: NutritionAnalysisResult,
                        build: Build)
    requires w.Valid() && Assemble(request, w, s, nutrition, build).Ok?
    ensures LaterStages(w, s, build) == [CookingOptimization, MealTheme, ImageGeneration]
  {
  }

  /** `suggest_meal_plan`: the six stages in order, then the plan. Every failure except
      the image step's is reported as `MEAL_PLANNING_FAILED` with status 500; `ran` is
      the stages that were started. */
  method SuggestMealPlan(request: MealPlanningRequest, w: World) returns (r: Result<MealPlan, Exception>, ran: seq<Stage>)
    requires w.Valid()
    ensures r == Outcome(request, w, AsWritten)
    ensures ran == StagesRun(request, w, AsWritten)
    ensures ran <= Order && |ran| >= 3
    ensures r.Ok? ==> ran == Order
    ensures |ran| < |Order| ==> r.Err?
    ensures r.Err? ==> r.error.App? && r.error.app.errorCode == "MEAL_PLANNING_FAILED" && r.error.app.statusCode == 500
  {
    var analysed, nutrition := AnalyseInputs(request, w);
    ran := [IngredientAnalysis, NutritionBalance, RecipeSuggestion];
    OrderSplits();
    var suggestion := Recipes.Process(analysed, w.hasKey, w.suggestion);
    assert suggestion == SuggestionOf(analysed, w);
    if suggestion.Err? {
      r := Err(PlanningFailure(suggestion.error));
      StagesRunShape(request, w, AsWritten);
      return;
    }
    var plan, later := Finish(request, w, suggestion.value, nutrition);
    ran := ran + later;
    r := if plan.Ok? then plan else Err(PlanningFailure(plan.error));
    StagesRunShape(request, w, AsWritten);
  }

  // ---- what the run promises

  /** The plan with every dish's picture cleared. */
  function Unillustrated(p: MealPlan): MealPlan {
    p.(mainDish := p.mainDish.(imageUrl := None), sideDish := p.sideDish.(imageUrl := None),
       soup := p.soup.(imageUrl := None), rice := p.rice.(imageUrl := None))
  }

  /** The image step can neither fail the plan nor change anything in it but the
      pictures: whatever the image settings are, the run succeeds or fails alike and
      the plans agree once the pictures are cleared. */
  lemma ImageStepOnlyAddsPictures(request: MealPlanningRequest, w: World, key: Images.SettingLookup,
                                   build: Build)
    requires w.Valid()
    ensures var v := w.(openAiKey := key);
      Outcome(request, w, build).Ok? == Outcome(request, v, build).Ok?
      && (Outcome(request, w, build).Err? ==> Outcome(request, w, build).error == Outcome(request, v, build).error)
      && (Outcome(request, w, build).Ok? ==> Unillustrated(Outcome(request, w, build).value) == Unillustrated(Outcome(request, v, build).value))
  {
    var v := w.(openAiKey := key);
    var analysed := Analysed(request);
    assert NutritionOf(analysed, w) == NutritionOf(analysed, v);
    assert SuggestionOf(analysed, w) == SuggestionOf(analysed, v);
    if SuggestionOf(analysed, w).Ok? {
      AssembleIgnoresPictures(request, w, key, SuggestionOf(analysed, w).value, NutritionOf(analysed, w), build);
    }
  }

  /** Stages 4 to 6 with the image settings changed. */
  lemma AssembleIgnoresPictures(request: MealPlanningRequest, w: World, key: Images.SettingLookup,
                                s: RecipeSuggestionResult, nutrition: NutritionAnalysisResult,
                                build: Build)
    requires w.Valid()
    ensures var a, b := Assemble(request, w, s, nutrition, build), Assemble(request, w.(openAiKey := key), s, nutrition, build);
      a.Ok? == b.Ok? && (a.Err? ==> a.error == b.error) && (a.Ok? ==> Unillustrated(a.value) == Unillustrated(b.value))
  {
    if Cooking.Chosen(s.Dishes(), w.hasKey, w.optimization).Ok?
       && ThemeOf(s, w, build).Ok? {
      AssembledAlike(request, w, key, s, nutrition, build);
    }
  }

  /** The case of `AssembleIgnoresPictures` where stages 4 and 5 succeed. */
  lemma AssembledAlike(request: MealPlanningRequest, w: World, key: Images.SettingLookup,
                       s: RecipeSuggestionResult, nutrition: NutritionAnalysisResult,
                       build: Build)
    requires w.Valid()
    requires Cooking.Chosen(s.Dishes(), w.hasKey, w.optimization).Ok?
    requires ThemeOf(s, w, build).Ok?
    ensures var a, b := Assemble(request, w, s, nutrition, build), Assemble(request, w.(openAiKey := key), s, nutrition, build);
      a.Ok? == b.Ok? && (a.Err? ==> a.error == b.error) && (a.Ok? ==> Unillustrated(a.value) == Unillustrated(b.value))
  {
    var v := w.(openAiKey := key);
    var total := Cooking.Chosen(s.Dishes(), w.hasKey, w.optimization).value.totalTime;
    var theme := ThemeOf(s, w, build).value;
    var d := Pictured(s, theme, w, build);
    var e := Pictured(s, theme, v, build);
    var p := MealPlan(request.householdId, w.now, Suggested, d.mainDish, d.sideDish, d.soup, d.rice,
                      total, s.difficulty, nutrition.nutritionScore, s.confidence);
    var q := MealPlan(request.householdId, w.now, Suggested, e.mainDish, e.sideDish, e.soup, e.rice,
                      total, s.difficulty, nutrition.nutritionScore, s.confidence);
    assert Assemble(request, w, s, nutrition, build) == ValidateMealPlan(p);
    assert Assemble(request, v, s, nutrition, build) == ValidateMealPlan(q);
    assert Unillustrated(p) == Unillustrated(q);
    ValidatedAlike(p, q);
  }

  /** Plans that differ only in their pictures pass or fail validation alike. */
  lemma ValidatedAlike(p: MealPlan, q: MealPlan)
    requires Unillustrated(p) == Unillustrated(q)
    ensures var a, b := ValidateMealPlan(p), ValidateMealPlan(q);
      a.Ok? == b.Ok? && (a.Err? ==> a.error == b.error) && (a.Ok? ==> Unillustrated(a.value) == Unillustrated(b.value))
  {
    assert p.totalCookingTime == Unillustrated(p).totalCookingTime == q.totalCookingTime;
    assert p.nutritionScore == q.nutritionScore && p.confidence == q.confidence;
  }

  /** Where the plan's fields come from: the household and the clock from the request
      and the run, the dishes and their difficulty and confidence from the recipe
      suggestion, the total time from the cooking optimisation of the suggested
      dishes, the score from the nutrition analysis. */
  lemma PlanProvenance(request: MealPlanningRequest, w: World, build: Build)
    requires w.Valid()
    requires Outcome(request, w, build).Ok?
    ensures SuggestionOf(Analysed(request), w).Ok?
    ensures var s := SuggestionOf(Analysed(request), w).value;
      var p := Outcome(request, w, build).value;
      Cooking.Chosen(s.Dishes(), w.hasKey, w.optimization).Ok?
      && p.householdId == request.householdId && p.date == w.now && p.status == Suggested
      && Unillustrated(p) == Unillustrated(MealPlan(request.householdId, w.now, Suggested,
           s.mainDish, s.sideDish, s.soup, s.rice,
           Cooking.Chosen(s.Dishes(), w.hasKey, w.optimization).value.totalTime,
           s.difficulty, NutritionOf(Analysed(request), w).nutritionScore, s.confidence))
      && p.totalCookingTime >= 1 && 0.0 <= p.nutritionScore <= 100.0 && 0.0 <= p.confidence <= 1.0
  {
  }

  /** Whenever the cooking stage falls back (always without a model key), the plan's
      total time is the optimised time of its longest dish: the stages run one after
      another but the total counts only that dish. */
  lemma RuleBasedTotalTime(request: MealPlanningRequest, w: World, build: Build)
    requires w.Valid() && w.optimization.Answer(w.hasKey).None?
    requires Outcome(request, w, build).Ok?
    ensures SuggestionOf(Analysed(request), w).Ok?
    ensures var s := SuggestionOf(Analysed(request), w).value;
      var p := Outcome(request, w, build).value;
      p.totalCookingTime == Cooking.OptimizedTime(Cooking.Longest(s.Dishes())[0].cookingTime)
      && p.totalCookingTime >= 5
  {
    var s := SuggestionOf(Analysed(request), w).value;
    assert Cooking.Chosen(s.Dishes(), w.hasKey, w.optimization) == Cooking.MockSpec(s.Dishes());
    Cooking.MockTotalIsMax(s.Dishes());
  }

  /** As written, a run whose theme stage falls back (every run without a model key)
      fails: once the dishes are suggested and optimised, the rule-based theme raises
      `ValueError`, which the service reports as `MEAL_PLANNING_FAILED`. */
  lemma RuleBasedThemeFailsRun(request: MealPlanningRequest, w: World)
    requires w.Valid() && w.theme.Answer(w.hasKey).None?
    ensures Outcome(request, w, AsWritten).Err?
    ensures var e := Outcome(request, w, AsWritten).error;
      e.App? && e.app.errorCode == "MEAL_PLANNING_FAILED" && e.app.statusCode == 500
  {
    var analysed := Analysed(request);
    if SuggestionOf(analysed, w).Ok? {
      RuleBasedThemeFailsAssemble(request, w, SuggestionOf(analysed, w).value, NutritionOf(analysed, w));
    }
  }

  /** Stages 4 to 6 as written, when the theme stage falls back. */
  lemma RuleBasedThemeFailsAssemble(request: MealPlanningRequest, w: World, s: RecipeSuggestionResult,
                                    nutrition: NutritionAnalysisResult)
    requires w.Valid() && w.theme.Answer(w.hasKey).None?
    ensures Assemble(request, w, s, nutrition, AsWritten).Err?
  {
    Themes.AsWrittenMockAlwaysFails(s.Dishes(), w.month, w.now, w.now);
  }

  /** With the level spelled by value, every run without a model key yields a plan:
      the rule-based dishes of 15, 5, 10 and 30 minutes, their optimisation, the theme
      and a plan that passes validation. */
  lemma CorrectedRuleBasedRunsSucceed(request: MealPlanningRequest, w: World)
    requires w.Valid() && !w.hasKey
    ensures Outcome(request, w, Corrected).Ok?
    ensures Outcome(request, w, Corrected).value.totalCookingTime >= 5
  {
    var analysed := Analysed(request);
    RuleBasedDishesOf(analysed, w);
    var s := SuggestionOf(analysed, w).value;
    var nutrition := NutritionOf(analysed, w);
    Nutrition.SumTotalsShape(analysed);
    assert 0.0 <= nutrition.nutritionScore <= 100.0;
    RuleBasedStagesSucceed(s, w);
    var o := Cooking.Chosen(s.Dishes(), w.hasKey, w.optimization).value;
    var t := ThemeOf(s, w, Corrected).value;
    AssembleWhenStagesSucceed(request, w, s, nutrition, t, Corrected);
  }

  /** Without a model key the recipe stage gives its rule-based dishes. */
  lemma RuleBasedDishesOf(analysed: seq<Ingredient>, w: World)
    requires !w.hasKey
    ensures SuggestionOf(analysed, w).Ok?
    ensures var s := SuggestionOf(analysed, w).value;
      [s.mainDish.cookingTime, s.sideDish.cookingTime, s.soup.cookingTime, s.rice.cookingTime] == [15, 5, 10, 30]
      && s.confidence == 0.8
  {
    assert w.suggestion.Answer(false).None?;
    Recipes.MockSuggestionSucceeds(analysed);
  }

  /** Dishes of 15, 5, 10 and 30 minutes get through stages 4 and 5 without a model key
      once the level is spelled by value. */
  lemma RuleBasedStagesSucceed(s: RecipeSuggestionResult, w: World)
    requires w.Valid() && !w.hasKey
    requires [s.mainDish.cookingTime, s.sideDish.cookingTime, s.soup.cookingTime, s.rice.cookingTime] == [15, 5, 10, 30]
    ensures Cooking.Chosen(s.Dishes(), w.hasKey, w.optimization).Ok?
    ensures Cooking.Chosen(s.Dishes(), w.hasKey, w.optimization).value.totalTime >= 5
    ensures ThemeOf(s, w, Corrected).Ok?
  {
    assert CookingTimes(s.Dishes()) == [15, 5, 10, 30];
    assert [15, 5, 10, 30][..3] == [15, 5, 10] && [15, 5, 10][..2] == [15, 5] && [15, 5][..1] == [15];
    assert Sum([15, 5, 10, 30]) == 60;
    assert w.optimization.Answer(false).None? && w.theme.Answer(false).None?;
    Cooking.MockTotalIsMax(s.Dishes());
    Themes.CorrectedMockSucceeds(s.Dishes(), w.month, w.now, w.now);
  }

  /** Every plan keeps the dishes exactly as the recipe suggestion gave them when the
      items have no `image_url` field (the first copy raises), and also when the
      settings declare no OpenAI key, as configured (the image stage raises). */
  lemma PlansAsConfiguredGetNoPictures(request: MealPlanningRequest, w: World, build: Build)
    requires w.Valid() && (!build.imageField || w.openAiKey == Images.OpenAiKeyAsConfigured)
    requires Outcome(request, w, build).Ok?
    ensures SuggestionOf(Analysed(request), w).Ok?
    ensures var s := SuggestionOf(Analysed(request), w).value;
      var p := Outcome(request, w, build).value;
      p.mainDish == s.mainDish && p.sideDish == s.sideDish && p.soup == s.soup && p.rice == s.rice
  {
  }

  /** With the items' `image_url` field and the key declared, every dish of the plan
      carries a picture; with the key declared but empty, that picture is the dish's
      placeholder. */
  lemma PlansWithDeclaredKeyGetPictures(request: MealPlanningRequest, w: World, build: Build)
    requires w.Valid() && build.imageField && w.openAiKey.Declared?
    requires Outcome(request, w, build).Ok?
    ensures var p := Outcome(request, w, build).value;
      p.mainDish.imageUrl.Some? && p.sideDish.imageUrl.Some? && p.soup.imageUrl.Some? && p.rice.imageUrl.Some?
    ensures var p := Outcome(request, w, build).value;
      w.openAiKey.value.GetOr("") == "" ==>
        p.mainDish.imageUrl == Some(Images.PlaceholderUrl(p.mainDish.name))
        && p.sideDish.imageUrl == Some(Images.PlaceholderUrl(p.sideDish.name))
        && p.soup.imageUrl == Some(Images.PlaceholderUrl(p.soup.name))
        && p.rice.imageUrl == Some(Images.PlaceholderUrl(p.rice.name))
  {
    var analysed := Analysed(request);
    var s := SuggestionOf(analysed, w).value;
    assert Outcome(request, w, build).value == Assemble(request, w, s, NutritionOf(analysed, w), build).value;
    AssembledPictures(request, w, s, NutritionOf(analysed, w), build);
  }

  /** Stages 4 to 6 with the key declared: every dish gets the URL of its own position,
      the placeholder for its name when the key is empty. */
  lemma AssembledPictures(request: MealPlanningRequest, w: World, s: RecipeSuggestionResult,
                          nutrition: NutritionAnalysisResult,
                          build: Build)
    requires w.Valid() && build.imageField && w.openAiKey.Declared? && Assemble(request, w, s, nutrition, build).Ok?
    ensures var p := Assemble(request, w, s, nutrition, build).value;
      p.mainDish.imageUrl.Some? && p.sideDish.imageUrl.Some? && p.soup.imageUrl.Some? && p.rice.imageUrl.Some?
      && (w.openAiKey.value.GetOr("") == "" ==>
            p.mainDish.imageUrl == Some(Images.PlaceholderUrl(p.mainDish.name))
            && p.sideDish.imageUrl == Some(Images.PlaceholderUrl(p.sideDish.name))
            && p.soup.imageUrl == Some(Images.PlaceholderUrl(p.soup.name))
            && p.rice.imageUrl == Some(Images.PlaceholderUrl(p.rice.name)))
  {
    var o := Cooking.Chosen(s.Dishes(), w.hasKey, w.optimization).value;
    var t := ThemeOf(s, w, build).value;
    var urls := ImageUrls(s.Dishes(), t, w).value;
    var d := Illustrated(s, Some(urls));
    var plan := MealPlan(request.householdId, w.now, Suggested, d.mainDish, d.sideDish, d.soup, d.rice,
                         o.totalTime, s.difficulty, nutrition.nutritionScore, s.confidence);
    assert Assemble(request, w, s, nutrition, build) == ValidateMealPlan(plan);
    assert d.mainDish.name == s.mainDish.name && d.sideDish.name == s.sideDish.name;
    assert d.soup.name == s.soup.name && d.rice.name == s.rice.name;
  }

  // ---- generate_shopping_list

  /** The plan's ingredients: main, side, soup, rice, each in its own order. */
  function AllIngredients(p: MealPlan): seq<Ingredient> {
    p.mainDish.ingredients + p.sideDish.ingredients + p.soup.ingredients + p.rice.ingredients
  }

  /** `{product.name.lower() for product in available_products}`. */
  function InventoryNames(products: seq<Product>): set<string> {
    set p | p in products :: Lower(p.name)
  }

  /** An ingredient goes on the list when it is marked for shopping or nothing in the
      inventory has its name, compared in lower case. */
  function NeedsBuying(names: set<string>): Ingredient -> bool {
    (i: Ingredient) => i.shoppingRequired || Lower(i.name) !in names
  }

  /** The list entry for one ingredient: never a custom item, always added by the agent. */
  function ToShoppingItem(i: Ingredient): (item: ShoppingItem)
    ensures !item.isCustom && item.addedBy == "adk_agent"
    ensures item.name == i.name && item.quantity == i.quantity && item.unit == i.unit
    ensures item.category == i.category && item.notes == i.notes
  {
    ShoppingItem(i.name, i.quantity, i.unit, i.category, false, "adk_agent", i.notes)
  }

  function ToShoppingItems(xs: seq<Ingredient>): (items: seq<ShoppingItem>)
    ensures |items| == |xs|
    ensures forall k :: 0 <= k < |xs| ==> items[k] == ToShoppingItem(xs[k])
  {
    seq(|xs|, k requires 0 <= k < |xs| => ToShoppingItem(xs[k]))
  }

  /** The shopping list of a plan against the inventory. */
  function ShoppingList(plan: MealPlan, products: seq<Product>): seq<ShoppingItem> {
    ToShoppingItems(Filter(AllIngredients(plan), NeedsBuying(InventoryNames(products))))
  }

  /** `generate_shopping_list`: one pass over the plan's ingredients, appending an entry
      for each one that needs buying. */
  method GenerateShoppingList(plan: MealPlan, products: seq<Product>) returns (items: seq<ShoppingItem>)
    ensures items == ShoppingList(plan, products)
  {
    var names := InventoryNames(products);
    var all := AllIngredients(plan);
    items := [];
    for i := 0 to |all|
      invariant items == ToShoppingItems(Filter(all[..i], NeedsBuying(names)))
    {
      assert all[..i + 1][..i] == all[..i];
      var ingredient := all[i];
      if ingredient.shoppingRequired || Lower(ingredient.name) !in names {
        items := items + [ToShoppingItem(ingredient)];
      }
    }
    assert all[..|all|] == all;
  }

  /** Marked for shopping, or no product's lower-cased name matches the ingredient's. */
  predicate Wanted(i: Ingredient, products: seq<Product>) {
    i.shoppingRequired || forall p :: p in products ==> Lower(p.name) != Lower(i.name)
  }

  predicate ComesFromWanted(item: ShoppingItem, plan: MealPlan, products: seq<Product>) {
    exists i :: i in AllIngredients(plan) && Wanted(i, products) && item == ToShoppingItem(i)
  }

  /** An ingredient needs buying exactly when it is marked for shopping or its name is
      not in the inventory; every list entry comes from a plan ingredient that needs
      buying, and every such ingredient has its entry. */
  lemma ShoppingListMembers(plan: MealPlan, products: seq<Product>)
    ensures forall i :: i in AllIngredients(plan) && Wanted(i, products) ==> ToShoppingItem(i) in ShoppingList(plan, products)
    ensures forall item :: item in ShoppingList(plan, products) ==> !item.isCustom && ComesFromWanted(item, plan, products)
  {
    var needed := Filter(AllIngredients(plan), NeedsBuying(InventoryNames(products)));
    FilterMembers(AllIngredients(plan), NeedsBuying(InventoryNames(products)));
    forall i | i in AllIngredients(plan) && Wanted(i, products)
      ensures ToShoppingItem(i) in ShoppingList(plan, products)
    {
      assert NeedsBuying(InventoryNames(products))(i);
      var k :| 0 <= k < |needed| && needed[k] == i;
      assert ShoppingList(plan, products)[k] == ToShoppingItem(i);
    }
    forall item | item in ShoppingList(plan, products)
      ensures !item.isCustom && ComesFromWanted(item, plan, products)
    {
      var k :| 0 <= k < |ShoppingList(plan, products)| && ShoppingList(plan, products)[k] == item;
      assert needed[k] in needed && NeedsBuying(InventoryNames(products))(needed[k]);
      assert Wanted(needed[k], products);
    }
  }

  /** The list follows the dishes' order, main, side, soup, rice, and repeats an
      ingredient as often as the dishes name it: nothing is merged. */
  lemma ShoppingListByDish(plan: MealPlan, products: seq<Product>)
    ensures var need := NeedsBuying(InventoryNames(products));
      ShoppingList(plan, products) ==
        ToShoppingItems(Filter(plan.mainDish.ingredients, need)) + ToShoppingItems(Filter(plan.sideDish.ingredients, need))
        + ToShoppingItems(Filter(plan.soup.ingredients, need)) + ToShoppingItems(Filter(plan.rice.ingredients, need))
    ensures |products| == 0 ==> |ShoppingList(plan, products)| == |AllIngredients(plan)|
  {
    var need := NeedsBuying(InventoryNames(products));
    var a, b, c, d := plan.mainDish.ingredients, plan.sideDish.ingredients, plan.soup.ingredients, plan.rice.ingredients;
    FilterAppend(a + b + c, d, need);
    FilterAppend(a + b, c, need);
    FilterAppend(a, b, need);
    var fa, fb, fc, fd := Filter(a, need), Filter(b, need), Filter(c, need), Filter(d, need);
    assert ToShoppingItems(fa + fb + fc + fd) == ToShoppingItems(fa) + ToShoppingItems(fb) + ToShoppingItems(fc) + ToShoppingItems(fd);
    if |products| == 0 {
      assert InventoryNames(products) == {};
      FilterAll(AllIngredients(plan), need);
    }
  }

  // ---- feedback and alternatives

  predicate TooSpicy(reason: string) {
    Contains(reason, "辛い") || Contains(reason, "辛すぎ")
  }

  predicate TooLong(reason: string) {
    Contains(reason, "時間") || Contains(reason, "長い")
  }

  predicate WantsEasier(reason: string) {
    Contains(reason, "簡単") || Contains(reason, "簡単に")
  }

  /** The preferences after feedback, as values: spiciness adds the restriction
      `spicy_food`, length takes ten minutes off the limit but not below ten, and a wish
      for something simple sets the difficulty to easy. */
  function Feedback(p: UserPreferences, reason: string): (q: UserPreferences)
    ensures q.dietaryRestrictions == p.dietaryRestrictions + (if TooSpicy(reason) then ["spicy_food"] else [])
    ensures TooLong(reason) ==> q.maxCookingTime == (if p.maxCookingTime - 10 > 10 then p.maxCookingTime - 10 else 10)
    ensures !TooLong(reason) ==> q.maxCookingTime == p.maxCookingTime
    ensures q.preferredDifficulty == (if WantsEasier(reason) then Easy else p.preferredDifficulty)
    ensures q.allergies == p.allergies && q.dislikedIngredients == p.dislikedIngredients
    ensures q.preferredCuisines == p.preferredCuisines
  {
    var spiced := if TooSpicy(reason) then p.(dietaryRestrictions := p.dietaryRestrictions + ["spicy_food"]) else p;
    var timed := if TooLong(reason) then spiced.(maxCookingTime := if spiced.maxCookingTime - 10 > 10 then spiced.maxCookingTime - 10 else 10) else spiced;
    if WantsEasier(reason) then timed.(preferredDifficulty := Easy) else timed
  }

  /** Feedback keeps valid preferences valid and never raises the time limit; a reason
      with none of the markers changes nothing. The second marker for simplicity adds
      nothing, because "簡単に" already contains "簡単". */
  lemma FeedbackKeepsPreferencesValid(p: UserPreferences, reason: string)
    ensures ValidateUserPreferences(p).Ok? ==> ValidateUserPreferences(Feedback(p, reason)).Ok?
    ensures p.maxCookingTime >= 10 ==> 10 <= Feedback(p, reason).maxCookingTime <= p.maxCookingTime
    ensures TooLong(reason) && p.maxCookingTime >= 20 ==> Feedback(p, reason).maxCookingTime == p.maxCookingTime - 10
    ensures !TooSpicy(reason) && !TooLong(reason) && !WantsEasier(reason) ==> Feedback(p, reason) == p
    ensures WantsEasier(reason) <==> Contains(reason, "簡単")
  {
    if Contains(reason, "簡単に") {
      assert "簡単に"[0..|"簡単"|] == "簡単";
      OccursAtContains("簡単に", "簡単", 0);
      ContainsTransitive(reason, "簡単に", "簡単");
    }
  }

  /** A list the preferences hold by reference: the shallow copy shares it. */
  class StringList {
    var items: seq<string>

    constructor (items: seq<string>)
      ensures this.items == items
    {
      this.items := items;
    }

    method Append(x: string)
      modifies this
      ensures items == old(items) + [x]
    {
      items := items + [x];
    }
  }

  /** A `UserPreferences` object: scalar fields of its own, lists by reference. */
  class Preferences {
    var maxCookingTime: int
    var preferredDifficulty: DifficultyLevel
    var dietaryRestrictions: StringList
    var allergies: StringList
    var dislikedIngredients: StringList
    var preferredCuisines: StringList

    /** Each list is an object of its own. */
    predicate Separate()
      reads this
    {
      dietaryRestrictions != allergies && dietaryRestrictions != dislikedIngredients
      && dietaryRestrictions != preferredCuisines && allergies != dislikedIngredients
      && allergies != preferredCuisines && dislikedIngredients != preferredCuisines
    }

    /** The preferences as a value. */
    function Value(): UserPreferences
      reads this, dietaryRestrictions, allergies, dislikedIngredients, preferredCuisines
    {
      UserPreferences(maxCookingTime, preferredDifficulty, dietaryRestrictions.items, allergies.items,
                      dislikedIngredients.items, preferredCuisines.items)
    }

    /** A fresh object with lists of its own. */
    constructor (p: UserPreferences)
      ensures Value() == p
      ensures fresh(dietaryRestrictions) && fresh(allergies) && fresh(dislikedIngredients) && fresh(preferredCuisines)
    {
      maxCookingTime := p.maxCookingTime;
      preferredDifficulty := p.preferredDifficulty;
      dietaryRestrictions := new StringList(p.dietaryRestrictions);
      allergies := new StringList(p.allergies);
      dislikedIngredients := new StringList(p.dislikedIngredients);
      preferredCuisines := new StringList(p.preferredCuisines);
    }

    /** `preferences.copy()`: a new object whose fields point at the same lists. */
    constructor Copy(from: Preferences)
      ensures maxCookingTime == from.maxCookingTime && preferredDifficulty == from.preferredDifficulty
      ensures dietaryRestrictions == from.dietaryRestrictions && allergies == from.allergies
      ensures dislikedIngredients == from.dislikedIngredients && preferredCuisines == from.preferredCuisines
    {
      maxCookingTime := from.maxCookingTime;
      preferredDifficulty := from.preferredDifficulty;
      dietaryRestrictions := from.dietaryRestrictions;
      allergies := from.allergies;
      dislikedIngredients := from.dislikedIngredients;
      preferredCuisines := from.preferredCuisines;
    }
  }

  /** `_modify_preferences_from_feedback`: the copy gets the feedback; because the copy
      is shallow, the restriction appended to it also lands in the caller's list, while
      the caller's time limit and difficulty stay as they were. */
  method ModifyPreferencesFromFeedback(preferences: Preferences, reason: string) returns (modified: Preferences)
    requires preferences.Separate()
    modifies preferences.dietaryRestrictions
    ensures fresh(modified) && modified.Separate()
    ensures modified.dietaryRestrictions == preferences.dietaryRestrictions
    ensures modified.Value() == Feedback(old(preferences.Value()), reason)
    ensures preferences.Value() == old(preferences.Value()).(dietaryRestrictions := modified.Value().dietaryRestrictions)
  {
    modified := new Preferences.Copy(preferences);
    if TooSpicy(reason) {
      modified.dietaryRestrictions.Append("spicy_food");
    }
    if TooLong(reason) {
      modified.maxCookingTime := if modified.maxCookingTime - 10 > 10 then modified.maxCookingTime - 10 else 10;
    }
    if WantsEasier(reason) {
      modified.preferredDifficulty := Easy;
    }
  }

  /** How many alternatives `suggest_alternatives` builds. */
  const AlternativeCount := 3

  /** The request each alternative is planned from: the same refrigerator and household,
      the preferences after feedback. */
  function AlternativeRequest(request: MealPlanningRequest, reason: string): MealPlanningRequest {
    request.(userPreferences := Feedback(request.userPreferences, reason))
  }

  /** The results of a series of runs gathered into one: all the values in order, or
      the first failure. */
  function Collect<T>(rs: seq<Result<T, Exception>>): Result<seq<T>, Exception> {
    if |rs| == 0 then Ok([])
    else
      match Collect(rs[..|rs| - 1])
      case Err(e) => Err(e)
      case Ok(vs) =>
        match rs[|rs| - 1]
        case Err(e) => Err(e)
        case Ok(v) => Ok(vs + [v])
  }

  /** Run `k` is the first to fail. */
  predicate FirstFailure<T>(rs: seq<Result<T, Exception>>, k: int) {
    0 <= k < |rs| && rs[k].Err? && forall j :: 0 <= j < k ==> rs[j].Ok?
  }

  /** Gathering succeeds exactly when every run does, and then holds one value per run
      in order; otherwise it reports the first failing run's error. */
  lemma {:induction false} CollectAll<T>(rs: seq<Result<T, Exception>>)
    ensures Collect(rs).Ok? <==> forall k :: 0 <= k < |rs| ==> rs[k].Ok?
    ensures Collect(rs).Ok? ==> |Collect(rs).value| == |rs|
    ensures Collect(rs).Ok? ==> forall k :: 0 <= k < |rs| ==> Collect(rs).value[k] == rs[k].value
    ensures Collect(rs).Err? ==> exists k :: FirstFailure(rs, k) && Collect(rs).error == rs[k].error
  {
    if |rs| > 0 {
      var init := rs[..|rs| - 1];
      CollectAll(init);
      if Collect(init).Err? {
        var k :| FirstFailure(init, k) && Collect(init).error == init[k].error;
        assert FirstFailure(rs, k);
      } else if rs[|rs| - 1].Err? {
        assert FirstFailure(rs, |rs| - 1);
      }
    }
  }

  /** Gathering one more run after a successful prefix. */
  lemma CollectStep<T>(rs: seq<Result<T, Exception>>, i: nat, vs: seq<T>)
    requires i < |rs| && Collect(rs[..i]) == Ok(vs)
    ensures Collect(rs[..i + 1]) == if rs[i].Ok? then Ok(vs + [rs[i].value]) else Err(rs[i].error)
  {
    assert rs[..i + 1][..i] == rs[..i];
  }

  /** Once a prefix of the runs fails, gathering all of them fails with the same error. */
  lemma {:induction false} CollectStopsAtFailure<T>(rs: seq<Result<T, Exception>>, n: nat)
    requires n <= |rs| && Collect(rs[..n]).Err?
    ensures Collect(rs) == Err(Collect(rs[..n]).error)
    decreases |rs| - n
  {
    if n < |rs| {
      assert rs[..n + 1][..n] == rs[..n];
      CollectStopsAtFailure(rs, n + 1);
    } else {
      assert rs[..n] == rs;
    }
  }

  /** The outcome of planning `request` in each of the runs `worlds`. */
  function Outcomes(request: MealPlanningRequest, worlds: seq<World>, build: Build): (rs: seq<Result<MealPlan, Exception>>)
    requires forall k :: 0 <= k < |worlds| ==> worlds[k].Valid()
    ensures |rs| == |worlds|
    ensures forall k :: 0 <= k < |worlds| ==> rs[k] == Outcome(request, worlds[k], build)
  {
    seq(|worlds|, k requires 0 <= k < |worlds| => Outcome(request, worlds[k], build))
  }

  /** `MealPlanningException(f"Failed to generate alternatives: {e}", "ALTERNATIVE_PLANNING_FAILED", 500)`. */
  function AlternativesFailure(e: Exception): (f: Exception)
    ensures f.App? && f.app.errorCode == "ALTERNATIVE_PLANNING_FAILED" && f.app.statusCode == 500
    ensures f.app.message == "Failed to generate alternatives: " + e.Message()
  {
    App(NewMealPlanningException("Failed to generate alternatives: " + e.Message(), "ALTERNATIVE_PLANNING_FAILED", 500))
  }

  /** The loop of `suggest_alternatives`: plan `request` once per world, stopping at the
      first failure. */
  method PlanAlternatives(request: MealPlanningRequest, worlds: seq<World>) returns (r: Result<seq<MealPlan>, Exception>)
    requires forall k :: 0 <= k < |worlds| ==> worlds[k].Valid()
    ensures r == Collect(Outcomes(request, worlds, AsWritten))
  {
    ghost var outcomes := Outcomes(request, worlds, AsWritten);
    var plans := [];
    for i := 0 to |worlds|
      invariant Collect(outcomes[..i]) == Ok(plans)
    {
      var plan, _ := SuggestMealPlan(request, worlds[i]);
      assert plan == outcomes[i];
      CollectStep(outcomes, i, plans);
      if plan.Err? {
        CollectStopsAtFailure(outcomes, i + 1);
        return Err(plan.error);
      }
      plans := plans + [plan.value];
    }
    assert outcomes[..|worlds|] == outcomes;
    r := Ok(plans);
  }

  /** The run of one alternative. After a wish for something simpler the preferences
      hold the plain string "easy" instead of a level; the recipe and theme prompts
      read its `.name`, raise before any call, and those two stages fall back to their
      rule-based answers, as when their calls fail. Nothing else about the run changes. */
  function AlternativeWorld(w: World, reason: string): (v: World)
    ensures v.Valid() == w.Valid()
    ensures WantsEasier(reason) ==> v.suggestion.Answer(v.hasKey).None? && v.theme.Answer(v.hasKey).None?
    ensures v.hasKey == w.hasKey && v.recommendations == w.recommendations && v.nutrition == w.nutrition
    ensures v.optimization == w.optimization && v.now == w.now && v.month == w.month
    ensures v.openAiKey == w.openAiKey && v.attempts == w.attempts
    ensures !WantsEasier(reason) ==> v == w
  {
    if WantsEasier(reason) then w.(suggestion := w.suggestion.(reply := None), theme := w.theme.(reply := None))
    else w
  }

  function AlternativeWorlds(worlds: seq<World>, reason: string): (vs: seq<World>)
    ensures |vs| == |worlds|
    ensures forall k :: 0 <= k < |worlds| ==> vs[k] == AlternativeWorld(worlds[k], reason)
  {
    seq(|worlds|, k requires 0 <= k < |worlds| => AlternativeWorld(worlds[k], reason))
  }

  /** A series of runs whose first run fails gathers into that run's failure. */
  lemma CollectFailsAtFirst<T>(rs: seq<Result<T, Exception>>)
    requires |rs| > 0 && rs[0].Err?
    ensures Collect(rs) == Err(rs[0].error)
  {
    assert rs[..1][..0] == [];
    CollectStopsAtFailure(rs, 1);
  }

  /** `suggest_alternatives`: adjust the caller's preferences for the feedback, then
      plan three times from the adjusted request, one run per world. The original plan
      is not consulted. A failure of any run is re-raised as
      `ALTERNATIVE_PLANNING_FAILED`; the caller's restriction list keeps whatever the
      feedback appended. */
  method SuggestAlternatives(originalPlan: MealPlan, request: MealPlanningRequest, preferences: Preferences,
                             reason: string, worlds: seq<World>)
    returns (r: Result<seq<MealPlan>, Exception>)
    requires preferences.Value() == request.userPreferences && preferences.Separate()
    requires |worlds| == AlternativeCount && forall k :: 0 <= k < |worlds| ==> worlds[k].Valid()
    modifies preferences.dietaryRestrictions
    ensures var outcomes := Outcomes(AlternativeRequest(request, reason), AlternativeWorlds(worlds, reason),
                                     AsWritten);
      match Collect(outcomes)
      case Ok(plans) => r == Ok(plans)
      case Err(e) => r == Err(AlternativesFailure(e))
    ensures WantsEasier(reason) ==> r.Err? && r.error.App? && r.error.app.errorCode == "ALTERNATIVE_PLANNING_FAILED"
    ensures preferences.Value() == request.userPreferences.(dietaryRestrictions := Feedback(request.userPreferences, reason).dietaryRestrictions)
  {
    var modified := ModifyPreferencesFromFeedback(preferences, reason);
    var alt := request.(userPreferences := modified.Value());
    assert alt == AlternativeRequest(request, reason);
    var plans := PlanAlternatives(alt, AlternativeWorlds(worlds, reason));
    if WantsEasier(reason) {
      var ws := AlternativeWorlds(worlds, reason);
      RuleBasedThemeFailsRun(alt, ws[0]);
      CollectFailsAtFirst(Outcomes(alt, ws, AsWritten));
    }
    r := if plans.Ok? then plans else Err(AlternativesFailure(plans.error));
  }
}
