/** The meal-theme stage: a theme name chosen from the dish names (or the season), an
    overall difficulty averaged over the dishes, and the unified meal plan that keeps
    the given dishes by position. */
module MealTheme {
  import opened Wrappers
  import opened Text
  import opened Seqs
  import opened Errors
  import opened Schemas
  import opened ModelCall

  // ---- season and difficulty scales

  /** `_determine_season` of a calendar month. */
  function Season(month: int): (s: string)
    requires 1 <= month <= 12
    ensures s == "冬" <==> month == 12 || month == 1 || month == 2
    ensures s == "春" <==> 3 <= month <= 5
    ensures s == "夏" <==> 6 <= month <= 8
    ensures s == "秋" <==> 9 <= month <= 11
  {
    if month == 12 || month == 1 || month == 2 then "冬"
    else if 3 <= month <= 5 then "春"
    else if 6 <= month <= 8 then "夏"
    else "秋"
  }

  /** `_difficulty_to_score`: EASY 1, MEDIUM 2, HARD 3, EXPERT 4; every level is in
      the table, so its default of 1 is never taken. */
  function DifficultyToScore(d: DifficultyLevel): (k: int)
    ensures 1 <= k <= 4
  {
    match d
    case Easy => 1
    case Medium => 2
    case Hard => 3
    case Expert => 4
  }

  /** `_score_to_difficulty`: thresholds at 1.5, 2.5 and 3.5. */
  function ScoreToDifficulty(score: real): (d: DifficultyLevel)
    ensures d == Easy <==> score <= 1.5
    ensures d == Medium <==> 1.5 < score <= 2.5
    ensures d == Hard <==> 2.5 < score <= 3.5
    ensures d == Expert <==> 3.5 < score
  {
    if score <= 1.5 then Easy
    else if score <= 2.5 then Medium
    else if score <= 3.5 then Hard
    else Expert
  }

  /** The two scales are inverse on the levels, and a higher score never gives an
      easier level. */
  lemma DifficultyScaleRoundTrip(d: DifficultyLevel, s: real, t: real)
    ensures ScoreToDifficulty(DifficultyToScore(d) as real) == d
    ensures DifficultyToScore(d) == 1 ==> d == Easy
    ensures s <= t ==> DifficultyToScore(ScoreToDifficulty(s)) <= DifficultyToScore(ScoreToDifficulty(t))
  {
  }

  /** The mean of the dishes' difficulty scores. */
  function MeanScore(recipes: seq<MealItem>): (m: real)
    requires |recipes| > 0
  {
    Sum(Scores(recipes)) as real / |recipes| as real
  }

  function Scores(recipes: seq<MealItem>): (ks: seq<int>)
    ensures |ks| == |recipes|
    ensures forall i :: 0 <= i < |ks| ==> ks[i] == DifficultyToScore(recipes[i].difficulty)
  {
    seq(|recipes|, i requires 0 <= i < |recipes| => DifficultyToScore(recipes[i].difficulty))
  }

  lemma {:induction false} SumBounds(ks: seq<int>, lo: int, hi: int)
    requires forall i :: 0 <= i < |ks| ==> lo <= ks[i] <= hi
    ensures lo * |ks| <= Sum(ks) <= hi * |ks|
  {
    if |ks| > 0 {
      var n := |ks| - 1;
      var init := ks[..n];
      SumBounds(init, lo, hi);
      assert Sum(ks) == Sum(init) + ks[n];
      assert lo * (n + 1) == lo * n + lo && hi * (n + 1) == hi * n + hi;
    }
  }

  /** When every dish is at one level, the mean of their scores maps back to that
      level, so the plan's overall difficulty is that level. */
  lemma MeanOfEqualLevels(recipes: seq<MealItem>, d: DifficultyLevel)
    requires |recipes| > 0
    requires forall i :: 0 <= i < |recipes| ==> recipes[i].difficulty == d
    ensures ScoreToDifficulty(MeanScore(recipes)) == d
  {
    var ks := Scores(recipes);
    var k := DifficultyToScore(d);
    SumBounds(ks, k, k);
    assert Sum(ks) == k * |ks|;
    var n := |ks| as real;
    assert Sum(ks) as real == (k as real) * n;
    DivideBack(k as real, n);
  }

  lemma DivideBack(x: real, n: real)
    requires n > 0.0
    ensures x * n / n == x
  {
    var m := x * n / n;
    assert m * n == x * n;
    assert (m - x) * n == 0.0;
  }

  // ---- the theme

  /** Some dish name contains `a` or `b`. */
  predicate AnyNamed(recipes: seq<MealItem>, a: string, b: string) {
    exists i :: 0 <= i < |recipes| && (Contains(recipes[i].name, a) || Contains(recipes[i].name, b))
  }

  datatype Theme = Theme(name: string, description: string)

  /** The theme of the rule-based answer: Japanese, then Chinese, then vegetable
      names win, in that order; otherwise the season names the theme. */
  function ThemeFor(recipes: seq<MealItem>, season: string): (t: Theme)
    ensures AnyNamed(recipes, "和", "味噌") ==> t.name == "和風家庭料理テーマ"
    ensures !AnyNamed(recipes, "和", "味噌") && AnyNamed(recipes, "中華", "炒め") ==> t.name == "中華風炒め物テーマ"
    ensures !AnyNamed(recipes, "和", "味噌") && !AnyNamed(recipes, "中華", "炒め") && AnyNamed(recipes, "野菜", "サラダ") ==>
              t.name == "ヘルシー野菜中心テーマ"
    ensures !AnyNamed(recipes, "和", "味噌") && !AnyNamed(recipes, "中華", "炒め") && !AnyNamed(recipes, "野菜", "サラダ") ==>
              t.name == season + "の家庭料理テーマ"
  {
    if AnyNamed(recipes, "和", "味噌") then
      Theme("和風家庭料理テーマ", "醤油と味噌をベースにした和風の味付けで統一した家庭料理")
    else if AnyNamed(recipes, "中華", "炒め") then
      Theme("中華風炒め物テーマ", "オイスターソースや豆板醤を使った中華風の炒め物中心の献立")
    else if AnyNamed(recipes, "野菜", "サラダ") then
      Theme("ヘルシー野菜中心テーマ", "野菜を主役にしたヘルシーで軽やかな味付けの献立")
    else
      Theme(season + "の家庭料理テーマ", season + "の食材を活かした温かみのある家庭料理")
  }

  /** A name with 味噌 decides the theme whatever the other dishes are called. */
  lemma MisoWins(recipes: seq<MealItem>, i: nat, season: string)
    requires i < |recipes| && Contains(recipes[i].name, "味噌")
    ensures ThemeFor(recipes, season).name == "和風家庭料理テーマ"
  {
  }

  // ---- the theme data both paths hand to `process`

  /** One dish summary inside `unified_meal_plan`. */
  datatype SlotData = SlotData(name: string, description: string, cookingTime: int, difficulty: string)

  /** The `unified_meal_plan` dictionary; every key may be missing. */
  datatype PlanData = PlanData(
    householdId: Option<string>,
    date: Option<Timestamp>,
    status: Option<string>,
    slots: seq<SlotData>,
    totalCookingTime: Option<int>,
    difficulty: Option<string>,
    nutritionScore: Option<real>,
    confidence: Option<real>)

  datatype ThemeData = ThemeData(themeName: string, themeDescription: string, unifiedMealPlan: PlanData, visualStyle: VisualStyle)

  const SlotNames: seq<string> := ["主菜", "副菜", "汁物", "主食"]
  const SlotTimes: seq<int> := [20, 15, 10, 30]

  /** Slot `i` of the rule-based plan: the `i`-th dish when there is one, else the
      slot's default name and time. */
  function MockSlot(recipes: seq<MealItem>, i: nat, theme: string, level: string): (s: SlotData)
    requires i < 4
    ensures i < |recipes| ==> s.name == recipes[i].name && s.cookingTime == recipes[i].cookingTime
    ensures i >= |recipes| ==> s.name == SlotNames[i] && s.cookingTime == SlotTimes[i]
    ensures s.difficulty == level
  {
    if i < |recipes| then
      SlotData(recipes[i].name, theme + "に合わせて調整された" + recipes[i].description, recipes[i].cookingTime, level)
    else
      SlotData(SlotNames[i], theme + "に合わせて調整された" + SlotNames[i], SlotTimes[i], level)
  }

  /** `_get_mock_theme`, with the spelling it writes the overall difficulty in as a
      parameter: the agent writes the enum's upper-case name. The mean divides by
      the number of dishes, so no dishes is a `ZeroDivisionError`. */
  function MockTheme(recipes: seq<MealItem>, month: int, currentDate: Timestamp,
                     spell: DifficultyLevel -> string): (r: Result<ThemeData, Exception>)
    requires 1 <= month <= 12
    ensures r.Err? <==> |recipes| == 0
    ensures r.Ok? ==> r.value.themeName == ThemeFor(recipes, Season(month)).name
    ensures r.Ok? ==> r.value.unifiedMealPlan.totalCookingTime == Some(Sum(CookingTimes(recipes)))
    ensures r.Ok? ==> r.value.unifiedMealPlan.difficulty == Some(spell(ScoreToDifficulty(MeanScore(recipes))))
    ensures r.Ok? ==> r.value.unifiedMealPlan.nutritionScore == Some(85.0)
    ensures r.Ok? ==> r.value.unifiedMealPlan.confidence == Some(0.8)
    ensures r.Ok? ==> r.value.unifiedMealPlan.date == Some(currentDate)
  {
    var theme := ThemeFor(recipes, Season(month));
    if |recipes| == 0 then Err(Builtin(ZeroDivisionError, "division by zero"))
    else
      var level := spell(ScoreToDifficulty(MeanScore(recipes)));
      var plan := PlanData(Some("household_123"), Some(currentDate), Some("suggested"),
                           seq(4, i requires 0 <= i < 4 => MockSlot(recipes, i, theme.name, level)),
                           Some(Sum(CookingTimes(recipes))), Some(level), Some(85.0), Some(0.8));
      Ok(ThemeData(theme.name, theme.description, plan,
                   VisualStyle(Some(["緑", "白", "茶"]), Some("家庭的な温かみのある雰囲気"), Some("シンプルで美しい盛り付け"))))
  }

  /** How the agent spells the level (`.name`, upper case) and how the plan reads it
      back (`DifficultyLevel(...)`, by value). */
  function AsWrittenSpelling(): DifficultyLevel -> string {
    (d: DifficultyLevel) => d.Name()
  }

  function CorrectedSpelling(): DifficultyLevel -> string {
    (d: DifficultyLevel) => d.Value()
  }

  // ---- the model path

  /** The parsed model reply. */
  datatype ThemeReply = ThemeReply(
    themeName: Option<string>,
    themeDescription: Option<string>,
    unifiedMealPlan: Option<PlanData>,
    visualStyle: Option<VisualStyle>)

  const EmptyPlan: PlanData := PlanData(None, None, None, [], None, None, None, None)

  /** Green, white and brown, a homely mood and simple, warm plating. */
  const DefaultVisualStyle: VisualStyle :=
    VisualStyle(Some(["緑", "白", "茶"]), Some("家庭的な雰囲気"), Some("シンプルで温かみのある盛り付け"))

  /** The cleaning of the reply: default theme name, description, an empty plan and
      the default visual style for missing keys. */
  function FromModel(d: ThemeReply): (t: ThemeData)
    ensures t.themeName == d.themeName.GetOr("統一献立テーマ")
    ensures t.themeDescription == d.themeDescription.GetOr("バランスの取れた献立")
    ensures t.unifiedMealPlan == d.unifiedMealPlan.GetOr(EmptyPlan)
    ensures d.visualStyle.Some? ==> t.visualStyle == d.visualStyle.value
    ensures d.visualStyle.None? ==> t.visualStyle == DefaultVisualStyle
  {
    ThemeData(d.themeName.GetOr("統一献立テーマ"), d.themeDescription.GetOr("バランスの取れた献立"),
              d.unifiedMealPlan.GetOr(EmptyPlan),
              d.visualStyle.GetOr(DefaultVisualStyle))
  }

  // ---- the unified meal plan

  const DefaultNutrition: NutritionInfo := NutritionInfo(200.0, 10.0, 20.0, 5.0)

  /** `_create_default_meal_item`: a 20-minute easy main dish with one step. */
  function DefaultMealItem(name: string): (m: MealItem)
    ensures m.name == name && m.cookingTime == 20 && m.difficulty == Easy
    ensures m.Valid() && |m.recipe.steps| == 1 && m.ingredients == []
  {
    MealItem(name, Main, "デフォルトの" + name, [],
             Recipe([RecipeStep(1, name + "を作る")], 20, 10, Easy, [], 4, DefaultNutrition),
             20, Easy, DefaultNutrition)
  }

  /** Dish `i` of the unified plan: the given dish at that position, else a default. */
  function Slot(originals: seq<MealItem>, i: nat): (m: MealItem)
    requires i < 4
    ensures i < |originals| ==> m == originals[i]
    ensures i >= |originals| ==> m == DefaultMealItem(SlotNames[i])
  {
    if i < |originals| then originals[i] else DefaultMealItem(SlotNames[i])
  }

  /** `_create_unified_meal_plan`: the dishes come from the originals by position, the
      rest from the data with defaults (household_123, now, 60 minutes, easy, 80, 0.8);
      the difficulty is parsed by value, and the plan's own bounds are then checked. */
  function CreateUnifiedMealPlan(originals: seq<MealItem>, data: PlanData, now: Timestamp): (r: Result<MealPlan, Exception>)
    ensures ParseDifficulty(data.difficulty.GetOr("easy")).None? ==> r.Err? && r.error.Builtin? && r.error.kind == ValueError
    ensures r.Ok? ==>
      r.value.mainDish == Slot(originals, 0) && r.value.sideDish == Slot(originals, 1)
      && r.value.soup == Slot(originals, 2) && r.value.rice == Slot(originals, 3)
      && r.value.status == Suggested && r.value.createdBy == "adk_agent"
      && r.value.householdId == data.householdId.GetOr("household_123")
      && r.value.date == data.date.GetOr(now)
      && r.value.totalCookingTime == data.totalCookingTime.GetOr(60)
      && Some(r.value.difficulty) == ParseDifficulty(data.difficulty.GetOr("easy"))
      && r.value.nutritionScore == data.nutritionScore.GetOr(80.0)
      && r.value.confidence == data.confidence.GetOr(0.8)
    ensures r.Ok? <==>
      ParseDifficulty(data.difficulty.GetOr("easy")).Some?
      && data.totalCookingTime.GetOr(60) >= 1
      && 0.0 <= data.nutritionScore.GetOr(80.0) <= 100.0
      && 0.0 <= data.confidence.GetOr(0.8) <= 1.0
  {
    match ParseDifficulty(data.difficulty.GetOr("easy"))
    case None => Err(Builtin(ValueError, "'" + data.difficulty.GetOr("easy") + "' is not a valid DifficultyLevel"))
    case Some(level) =>
      ValidateMealPlan(MealPlan(data.householdId.GetOr("household_123"), data.date.GetOr(now), Suggested,
                                Slot(originals, 0), Slot(originals, 1), Slot(originals, 2), Slot(originals, 3),
                                data.totalCookingTime.GetOr(60), level,
                                data.nutritionScore.GetOr(80.0), data.confidence.GetOr(0.8)))
  }

  // ---- process

  /** The theme data the stage uses: the model's cleaned reply when there is one, the
      rule-based answer (in the given spelling) otherwise. */
  function Chosen(recipes: seq<MealItem>, month: int, currentDate: Timestamp, answer: Option<ThemeReply>,
                  spell: DifficultyLevel -> string): Result<ThemeData, Exception>
    requires 1 <= month <= 12
  {
    match answer
    case Some(d) => Ok(FromModel(d))
    case None => MockTheme(recipes, month, currentDate, spell)
  }

  /** `process` with the given spelling of the rule-based difficulty. */
  function ThemeWith(recipes: seq<MealItem>, month: int, currentDate: Timestamp, now: Timestamp,
                     answer: Option<ThemeReply>, spell: DifficultyLevel -> string): (r: Result<MealThemeResult, Exception>)
    requires 1 <= month <= 12
    ensures Chosen(recipes, month, currentDate, answer, spell).Err? ==> r.Err?
    ensures r.Ok? ==> Chosen(recipes, month, currentDate, answer, spell).Ok?
    ensures r.Ok? ==> var t := Chosen(recipes, month, currentDate, answer, spell).value;
      r.value.themeName == t.themeName && r.value.themeDescription == t.themeDescription
      && r.value.visualStyle == t.visualStyle
      && Ok(r.value.unifiedMealPlan) == CreateUnifiedMealPlan(recipes, t.unifiedMealPlan, now)
  {
    match Chosen(recipes, month, currentDate, answer, spell)
    case Err(e) => Err(e)
    case Ok(t) =>
      match CreateUnifiedMealPlan(recipes, t.unifiedMealPlan, now)
      case Err(e) => Err(e)
      case Ok(plan) => Ok(MealThemeResult(t.themeName, t.themeDescription, plan, t.visualStyle))
  }

  /** `process` as written: the model's answer when there is one; otherwise the
      rule-based answer, whose level is spelled by member name, so no theme comes out.
      A model answer does not depend on the spelling. */
  function Process(recipes: seq<MealItem>, month: int, currentDate: Timestamp, now: Timestamp,
                   hasKey: bool, oracle: Oracle<ThemeReply>): (r: Result<MealThemeResult, Exception>)
    requires 1 <= month <= 12
    ensures oracle.Answer(hasKey).None? ==> r.Err?
    ensures oracle.Answer(hasKey).Some? ==>
      r == ThemeWith(recipes, month, currentDate, now, oracle.Answer(hasKey), CorrectedSpelling())
  {
    AsWrittenMockAlwaysFails(recipes, month, currentDate, now);
    ThemeWith(recipes, month, currentDate, now, oracle.Answer(hasKey), AsWrittenSpelling())
  }

  /** As written, the rule-based path never produces a theme: it records the level as
      `EASY` and the like, which `DifficultyLevel(...)` rejects. */
  lemma AsWrittenMockAlwaysFails(recipes: seq<MealItem>, month: int, currentDate: Timestamp, now: Timestamp)
    requires 1 <= month <= 12
    ensures ThemeWith(recipes, month, currentDate, now, None, AsWrittenSpelling()).Err?
    ensures |recipes| > 0 ==> ThemeWith(recipes, month, currentDate, now, None, AsWrittenSpelling()).error.kind == ValueError
  {
    if |recipes| > 0 {
      var level := ScoreToDifficulty(MeanScore(recipes));
      ParseDifficultyRejectsNames(level);
    }
  }

  /** Spelled by value, the rule-based path gives a plan whenever there are dishes and
      their times add up to at least a minute: the dishes kept by position, their total
      time, the averaged difficulty, 85 and 0.8. */
  lemma CorrectedMockSucceeds(recipes: seq<MealItem>, month: int, currentDate: Timestamp, now: Timestamp)
    requires 1 <= month <= 12
    requires |recipes| > 0 && Sum(CookingTimes(recipes)) >= 1
    ensures var r := ThemeWith(recipes, month, currentDate, now, None, CorrectedSpelling());
      r.Ok?
      && r.value.themeName == ThemeFor(recipes, Season(month)).name
      && r.value.unifiedMealPlan.totalCookingTime == Sum(CookingTimes(recipes))
      && r.value.unifiedMealPlan.difficulty == ScoreToDifficulty(MeanScore(recipes))
      && r.value.unifiedMealPlan.nutritionScore == 85.0 && r.value.unifiedMealPlan.confidence == 0.8
      && r.value.unifiedMealPlan.mainDish == recipes[0]
      && r.value.unifiedMealPlan.date == currentDate
  {
    var level := ScoreToDifficulty(MeanScore(recipes));
    ParseDifficultyRejectsNames(level);
  }
}
