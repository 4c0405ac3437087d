/** The domain records exchanged between the agents: enumerations, ingredients,
    recipes, dishes, meal plans and the per-stage request/result records, with the
    bounds their validators enforce. `datetime` values are opaque timestamps. */
module Schemas {
  import opened Wrappers
  import opened Errors

  datatype DifficultyLevel = Easy | Medium | Hard | Expert {
    /** The enum's value, as stored in JSON. */
    function Value(): string {
      match this
      case Easy => "easy"
      case Medium => "medium"
      case Hard => "hard"
      case Expert => "expert"
    }
    /** The member's `.name`. */
    function Name(): string {
      match this
      case Easy => "EASY"
      case Medium => "MEDIUM"
      case Hard => "HARD"
      case Expert => "EXPERT"
    }
  }

  /** `DifficultyLevel(v)`: lookup by value; anything else raises ValueError. */
  function ParseDifficulty(v: string): (r: Option<DifficultyLevel>)
    ensures r.Some? ==> r.value.Value() == v
    ensures forall d: DifficultyLevel :: d.Value() == v ==> r == Some(d)
  {
    if v == "easy" then Some(Easy)
    else if v == "medium" then Some(Medium)
    else if v == "hard" then Some(Hard)
    else if v == "expert" then Some(Expert)
    else None
  }

  /** A member's `.name` is not one of the values, so parsing it by value fails. */
  lemma ParseDifficultyRejectsNames(d: DifficultyLevel)
    ensures ParseDifficulty(d.Name()) == None
    ensures ParseDifficulty(d.Value()) == Some(d)
  {
  }

  datatype ExpiryPriority = Urgent | Soon | Fresh | LongTerm {
    function Value(): string {
      match this
      case Urgent => "urgent"
      case Soon => "soon"
      case Fresh => "fresh"
      case LongTerm => "long_term"
    }
    function Name(): string {
      match this
      case Urgent => "URGENT"
      case Soon => "SOON"
      case Fresh => "FRESH"
      case LongTerm => "LONG_TERM"
    }
    /** `priority_score`: the sort key, most urgent first. */
    function Score(): (s: int)
      ensures 1 <= s <= 4
    {
      match this
      case Urgent => 1
      case Soon => 2
      case Fresh => 3
      case LongTerm => 4
    }
  }

  /** The priority score is one-to-one, so sorting by it groups each priority. */
  lemma ScoreInjective(p: ExpiryPriority, q: ExpiryPriority)
    ensures p.Score() == q.Score() <==> p == q
  {
  }

  /** `ExpiryPriority(v)`: lookup by value. */
  function ParsePriority(v: string): (r: Option<ExpiryPriority>)
    ensures r.Some? ==> r.value.Value() == v
    ensures forall p: ExpiryPriority :: p.Value() == v ==> r == Some(p)
  {
    if v == "urgent" then Some(Urgent)
    else if v == "soon" then Some(Soon)
    else if v == "fresh" then Some(Fresh)
    else if v == "long_term" then Some(LongTerm)
    else None
  }

  datatype MealPlanStatus = Suggested | Accepted | Rejected | Completed

  datatype MealCategory = Main | Side | Soup | Rice

  type Timestamp = int

  /** A product from the refrigerator. `quantity` is held as the text `str(quantity)`
      produces. */
  datatype Product = Product(
    id: string,
    name: string,
    category: string,
    quantity: string,
    unit: string,
    expiryDate: Timestamp,
    daysUntilExpiry: int,
    currentImageUrl: Option<string> := None)

  datatype UserPreferences = UserPreferences(
    maxCookingTime: int := 60,
    preferredDifficulty: DifficultyLevel := Easy,
    dietaryRestrictions: seq<string> := [],
    allergies: seq<string> := [],
    dislikedIngredients: seq<string> := [],
    preferredCuisines: seq<string> := [])

  function ValidationFailure(message: string): Exception {
    Builtin(PydanticValidationError, message)
  }

  /** `UserPreferences(...)` validation: the cooking-time limit lies in [10, 300]. */
  function ValidateUserPreferences(p: UserPreferences): (r: Result<UserPreferences, Exception>)
    ensures r.Ok? <==> 10 <= p.maxCookingTime <= 300
    ensures r.Ok? ==> r.value == p
    ensures r.Err? ==> r.error.Builtin? && r.error.kind == PydanticValidationError
  {
    if 10 <= p.maxCookingTime <= 300 then Ok(p) else Err(ValidationFailure("max_cooking_time"))
  }

  /** The preferences a request gets when it states none are valid. */
  lemma DefaultPreferencesValid()
    ensures ValidateUserPreferences(UserPreferences()) == Ok(UserPreferences())
    ensures UserPreferences().maxCookingTime == 60 && UserPreferences().preferredDifficulty == Easy
  {
  }

  datatype Ingredient = Ingredient(
    name: string,
    quantity: string,
    unit: string,
    available: bool := true,
    expiryDate: Option<Timestamp> := None,
    shoppingRequired: bool := false,
    productId: Option<string> := None,
    priority: ExpiryPriority := Fresh,
    category: string := "その他",
    imageUrl: Option<string> := None,
    notes: Option<string> := None)
  {
    function PriorityScore(): int {
      priority.Score()
    }
  }

  datatype NutritionInfo = NutritionInfo(
    calories: real,
    protein: real,
    carbohydrates: real,
    fat: real,
    fiber: real := 0.0,
    sugar: real := 0.0,
    sodium: real := 0.0)
  {
    predicate Valid() {
      calories >= 0.0 && protein >= 0.0 && carbohydrates >= 0.0 && fat >= 0.0
      && fiber >= 0.0 && sugar >= 0.0 && sodium >= 0.0
    }
  }

  datatype RecipeStep = RecipeStep(stepNumber: int, description: string)

  datatype Recipe = Recipe(
    steps: seq<RecipeStep>,
    cookingTime: int,
    prepTime: int := 10,
    difficulty: DifficultyLevel,
    tips: seq<string> := [],
    servingSize: int := 4,
    nutritionInfo: NutritionInfo)
  {
    predicate Valid() {
      (forall k :: 0 <= k < |steps| ==> steps[k].stepNumber >= 1)
      && cookingTime >= 1 && prepTime >= 0 && servingSize >= 1 && nutritionInfo.Valid()
    }
  }

  /** A dish. `imageUrl` is not a field of `MealItem` in app/models/schemas.py: it stays `None`
      unless the corrected step 6 of the planning service assigns it. */
  datatype MealItem = MealItem(
    name: string,
    category: MealCategory,
    description: string,
    ingredients: seq<Ingredient>,
    recipe: Recipe,
    cookingTime: int,
    difficulty: DifficultyLevel,
    nutritionInfo: NutritionInfo,
    imageUrl: Option<string> := None)
  {
    predicate Valid() {
      recipe.Valid() && cookingTime >= 1 && nutritionInfo.Valid()
    }
  }

  /** The dishes' cooking times, in order. */
  function CookingTimes(recipes: seq<MealItem>): (ts: seq<int>)
    ensures |ts| == |recipes|
    ensures forall i :: 0 <= i < |ts| ==> ts[i] == recipes[i].cookingTime
  {
    seq(|recipes|, i requires 0 <= i < |recipes| => recipes[i].cookingTime)
  }

  datatype MealPlan = MealPlan(
    householdId: string,
    date: Timestamp,
    status: MealPlanStatus,
    mainDish: MealItem,
    sideDish: MealItem,
    soup: MealItem,
    rice: MealItem,
    totalCookingTime: int,
    difficulty: DifficultyLevel,
    nutritionScore: real,
    confidence: real,
    createdBy: string := "adk_agent")

  /** `MealPlan(...)` validation of the plan's own bounds. */
  function ValidateMealPlan(p: MealPlan): (r: Result<MealPlan, Exception>)
    ensures r.Ok? <==>
      p.totalCookingTime >= 1 && 0.0 <= p.nutritionScore <= 100.0 && 0.0 <= p.confidence <= 1.0
    ensures r.Ok? ==> r.value == p
  {
    if p.totalCookingTime < 1 then Err(ValidationFailure("total_cooking_time"))
    else if !(0.0 <= p.nutritionScore <= 100.0) then Err(ValidationFailure("nutrition_score"))
    else if !(0.0 <= p.confidence <= 1.0) then Err(ValidationFailure("confidence"))
    else Ok(p)
  }

  datatype ShoppingItem = ShoppingItem(
    name: string,
    quantity: string,
    unit: string,
    category: string,
    isCustom: bool := false,
    addedBy: string := "adk_agent",
    notes: Option<string> := None)

  datatype MealPlanningRequest = MealPlanningRequest(
    refrigeratorItems: seq<Product>,
    householdId: string,
    userPreferences: UserPreferences)

  /** The request validator: an empty refrigerator is rejected. */
  function ValidateMealPlanningRequest(r: MealPlanningRequest): (v: Result<MealPlanningRequest, Exception>)
    ensures v.Ok? <==> |r.refrigeratorItems| > 0
    ensures v.Ok? ==> v.value == r
  {
    if |r.refrigeratorItems| == 0 then Err(ValidationFailure("Refrigerator items cannot be empty"))
    else Ok(r)
  }

  datatype IngredientAnalysisResult = IngredientAnalysisResult(
    analyzedIngredients: seq<Ingredient>,
    priorityIngredients: seq<Ingredient>,
    expiringSoon: seq<Ingredient>,
    recommendations: seq<string>)

  datatype NutritionAnalysisResult = NutritionAnalysisResult(
    nutritionScore: real,
    recommendedNutrients: map<string, real>,
    warnings: seq<string>,
    suggestions: seq<string>)

  /** `NutritionAnalysisResult(...)` validation: the score lies in [0, 100]. */
  function ValidateNutritionResult(n: NutritionAnalysisResult): (r: Result<NutritionAnalysisResult, Exception>)
    ensures r.Ok? <==> 0.0 <= n.nutritionScore <= 100.0
    ensures r.Ok? ==> r.value == n
  {
    if 0.0 <= n.nutritionScore <= 100.0 then Ok(n) else Err(ValidationFailure("nutrition_score"))
  }

  datatype RecipeSuggestionResult = RecipeSuggestionResult(
    mainDish: MealItem,
    sideDish: MealItem,
    soup: MealItem,
    rice: MealItem,
    totalCookingTime: int,
    difficulty: DifficultyLevel,
    nutritionScore: real,
    confidence: real)
  {
    /** The four dishes in the order the service hands them on. */
    function Dishes(): seq<MealItem> {
      [mainDish, sideDish, soup, rice]
    }
  }

  /** One step of the optimised cooking schedule. */
  datatype ScheduleEntry = ScheduleEntry(time: string, action: string, duration: int, parallel: bool)

  datatype CookingOptimizationResult = CookingOptimizationResult(
    optimizedRecipes: seq<MealItem>,
    cookingSchedule: seq<ScheduleEntry>,
    totalTime: int,
    efficiencyScore: real)

  datatype VisualStyle = VisualStyle(colorPalette: Option<seq<string>>, mood: Option<string>, presentationStyle: Option<string>)

  datatype MealThemeResult = MealThemeResult(
    themeName: string,
    themeDescription: string,
    unifiedMealPlan: MealPlan,
    visualStyle: VisualStyle)

  datatype ImageMetadata =
    | Generated(recipeName: string, prompt: string, optimizedPrompt: string)
    | Placeholder(recipeName: string, error: string)
    | Mock(recipeName: string, prompt: string)

  datatype ImageGenerationResult = ImageGenerationResult(imageUrls: seq<string>, imageMetadata: seq<ImageMetadata>, generationTime: real)

  /** A preferences dictionary as an agent hands it on; every key may be missing. */
  datatype PreferenceData = PreferenceData(
    maxCookingTime: Option<int>,
    preferredDifficulty: Option<string>,
    dietaryRestrictions: Option<seq<string>>,
    allergies: Option<seq<string>>,
    dislikedIngredients: Option<seq<string>>,
    preferredCuisines: Option<seq<string>>)

  /** The `updated_profile` dictionary. */
  datatype ProfileData = ProfileData(
    userId: Option<string>,
    preferences: Option<PreferenceData>,
    conversationHistory: Option<seq<string>>,
    lastUpdated: Option<Timestamp>)

  datatype UserPreferenceResult = UserPreferenceResult(
    structuredPreferences: UserPreferences,
    confidenceScore: real,
    nextQuestions: seq<string>,
    updatedProfile: ProfileData)
}
