# Meal-planning backend: a verified model

This project is a Dafny model of the rule-based logic of a refrigerator and meal-planning app. The logic runs around its generative-model calls. It covers the following parts:

- **The agent pipeline** (`adk_backend/app/agents`). Each stage asks a model and falls back to fixed rules when there is no key or the answer cannot be used. The model calls are oracles that answer or raise (`ModelCall`). The rules themselves are modelled exactly:
  - ingredient priority and its stable sort;
  - the nutrition heuristics and score;
  - the recipe fallback and ingredient resolution;
  - the cooking-time optimisation and schedule;
  - the season, difficulty and theme rules;
  - the per-dish image loop;
  - the keyword parser for user preferences.
- **The shared agent contract** (`BaseAgent`). It covers:
  - the constructor's falsy-to-default settings;
  - the identity hooks;
  - `handle_error`, which re-raises the error it is given, so the original error leaves `process`.
- **Errors and schemas** (`Errors`, `Schemas`). The exception taxonomy, the enums, the priority scores and the field bounds.
- **The planning service** (`MealPlanningService`). It covers:
  - the fixed stage order and the failure policy, where a failed image step is ignored;
  - where each field of the plan comes from;
  - the shopping-list difference;
  - the feedback rules;
  - the three alternative runs. Here the shallow `copy()` of the preferences is a class whose list fields are objects shared with the caller.
- **The stand-alone image API** (`SimpleImageApi`). The keyword-to-photograph fallback and the choice between it and a generated file.
- **The Cloud Functions** (`CloudFunctions`). They cover:
  - the expiry-status trigger and its day count rounded up;
  - the daily expiry notifications;
  - the character-image prompt;
  - the argument checks of the callables;
  - the recipe mock.
- **The three seeding scripts** (`Seeding`, `BulkInsertProducts`, `BulkInsertWithScenarios`, `BulkInsertFridgeProducts`). They generate products, write them in batches and print statistics:
  - Firestore is a `Store` object that records every committed batch.
  - Each loop is proved to commit exactly the chunks of 500 writes of everything it wrote, plus the remainder.

As written, no planning run gets past step 3. `_create_meal_item` is called with `MealCategory.main` and its siblings (adk_backend/app/agents/recipe_suggestion_agent.py:109-112), but the enum's members are `MAIN`, `SIDE`, `SOUP` and `RICE` (adk_backend/app/models/schemas.py:29-33). So every run raises `AttributeError` there, with a model key or without, and the service reports `MEAL_PLANNING_FAILED`. The same kind of slip recurs later: the cooking fallback sorts by `r.cookingTime` (adk_backend/app/agents/cooking_optimization_agent.py:223), which a snake_case meal item does not have, so it raises on every call, whatever the dishes; the theme fallback reads the same attribute (adk_backend/app/agents/meal_theme_agent.py:272). Elsewhere camelCase constructor keywords are silently ignored, which either drops a value or leaves a required field unset. The model follows the intended data flow past these misspelt names (see "Left out", which lists each name and how it fails). Everything the model states about stages 3 to 6 is therefore a statement about that intended data flow.

Within that data flow, the model follows the code in these behaviours, several of which a reader would not expect:

- A stage's exception is not wrapped in a stage error. `handle_error` re-raises it, so the `raise XError(...)` after it is never reached (`BaseAgent.ProcessPropagatesBodyError`).
- The fallbacks are not total:
  - the cooking fallback raises `ValueError` for an empty dish list and `ZeroDivisionError` when the times add up to 0;
  - the meal-theme fallback always raises, because it spells the level by member name (see Findings). The service is modelled as written, so every run whose theme stage falls back fails (`MealPlanningService.RuleBasedThemeFailsRun`), and so do the alternatives after a wish for something simpler (`MealPlanningService.SuggestAlternatives`). The service's functions take a `Build` parameter, which says how the level is spelled and whether meal items have an `image_url` field; `MealPlanningService.CorrectedRuleBasedRunsSucceed` is about the corrected service;
- The ingredient summary for the model prompt is built inside the model path's `try`, so a summary that fails (an ingredient without a note, or a note without まで) only sends the stage to its rule-based messages (`IngredientAnalysis.GenerateAiRecommendations`); on analysed ingredients it never fails (`IngredientAnalysis.SummaryOfAnalysedSucceeds`).
- The cooking fallback's efficiency score truncates instead of rounding, and it has no lower clamp.
- The optimised times are zipped onto the dishes by position, so `[30, 20, 10, 40]` gets `[32, 24, 16, 8]`, not `[24, 16, 8, 32]`.
- The recipe fallback's urgency filter compares `priority.name` (`URGENT`) with lower-case names. So the filter is always empty and the first ingredient is the main one.
- After the feedback 簡単 the preferences hold the plain string `"easy"`. The recipe and theme prompts read its `.name` inside their `try` blocks (adk_backend/app/agents/recipe_suggestion_agent.py:172, adk_backend/app/agents/meal_theme_agent.py:135), so in the alternative runs those two stages always take their fallbacks (`MealPlanningService.AlternativeWorld`).

The lemmas `CookingOptimization.DivAtLeast`, `CookingOptimization.ProductPositive`, `CookingOptimization.SumNonNegative`, `MealTheme.SumBounds`, `MealTheme.DivideBack`, `ImageGeneration.ConcatEnds`, `NutritionBalance.PlusAssociative` and `NutritionBalance.MultipleOfFive` are arithmetic and sequence helpers for the proofs; they model nothing of their own and have no row below.

## Model

| member | source | states |
|---|---|---|
| BaseAgent.ModelOrDefault | adk_backend/app/agents/base_agent.py:19-27 | the configured model unless it is missing or empty, otherwise the configured default `gemini-1.5-pro`; never empty |
| BaseAgent.TemperatureOrDefault | adk_backend/app/agents/base_agent.py:19-28 | the configured temperature unless missing or `0.0` (falsy in `or`), otherwise 0.7 |
| BaseAgent.MaxTokensOrDefault | adk_backend/app/agents/base_agent.py:19-29 | the configured token limit unless missing or 0, otherwise 2048 |
| BaseAgent.DefaultingIdempotent | adk_backend/app/agents/base_agent.py:27-29 | applying the defaults to an already defaulted value changes nothing; an explicit temperature of 0.0 is replaced by the default |
| BaseAgent.Agent.constructor | adk_backend/app/agents/base_agent.py:19-38 | the agent keeps its name and prompt and holds the defaulted model, temperature and token limit |
| BaseAgent.Agent.GetAgentConfig | adk_backend/app/agents/base_agent.py:49-57 | the configuration dictionary carries exactly the agent's five settings |
| BaseAgent.Agent.ValidateRequest | adk_backend/app/agents/base_agent.py:59-62 | every request passes the base validation unchanged |
| BaseAgent.Agent.PreprocessRequest | adk_backend/app/agents/base_agent.py:64-67 | preprocessing is the identity (no agent overrides the hook) |
| BaseAgent.Agent.PostprocessResponse | adk_backend/app/agents/base_agent.py:69-72 | postprocessing is the identity (no agent overrides the hook) |
| BaseAgent.Agent.HandleError | adk_backend/app/agents/base_agent.py:74-82 | the handler re-raises the very error it was given |
| BaseAgent.Agent.Process | adk_backend/app/agents/ingredient_analysis_agent.py:79-108 | the shared validate / preprocess / body / postprocess / except shape of every agent's `process` yields exactly the body's outcome |
| BaseAgent.ProcessPropagatesBodyError | adk_backend/app/agents/ingredient_analysis_agent.py:105-108 | when the body fails, the error that escapes is the body's own, not the stage error the `except` block would build after `handle_error` |
| Errors.AllDeriveFromBase | adk_backend/app/core/exceptions.py:7-146 | every exception class of the module is a subclass of `MealPlanningException` |
| Errors.NewMealPlanningException | adk_backend/app/core/exceptions.py:7-21 | message, code and status are kept; missing details become `{}` |
| Errors.NewAgentException | adk_backend/app/core/exceptions.py:23-40 | the message is prefixed with `Agent '<name>' error: `; code, status and details are passed through |
| Errors.NewStageError | adk_backend/app/core/exceptions.py:42-124 | each stage error is an `AgentException` with its stage's agent name, error code and status 400 |
| Errors.StageErrorsDistinct | adk_backend/app/core/exceptions.py:42-124 | two different stages never share an error code or an agent name |
| Errors.NewAPIValidationError | adk_backend/app/core/exceptions.py:126-135 | code `VALIDATION_ERROR`, status 400, details hold `field` plus the given details, which win on a clash |
| Errors.NewExternalAPIError | adk_backend/app/core/exceptions.py:137-146 | message prefixed with `External API '<name>' error: `, code `EXTERNAL_API_ERROR`, status 502 |
| Schemas.ParseDifficulty | adk_backend/app/models/schemas.py:11-15 | the enum accepts a string exactly when it is one member's value, and returns that member |
| Schemas.ParseDifficultyRejectsNames | adk_backend/app/models/schemas.py:11-15 | member names (`EASY`, …) are rejected, member values accepted |
| Schemas.ExpiryPriority.Score | adk_backend/app/models/schemas.py:71-80 | the priority score lies between 1 and 4 |
| Schemas.ScoreInjective | adk_backend/app/models/schemas.py:71-80 | two priorities have the same score exactly when they are equal |
| Schemas.ParsePriority | adk_backend/app/models/schemas.py:17-21 | a string is accepted exactly when it is one priority's value |
| Schemas.ValidateUserPreferences | adk_backend/app/models/schemas.py:47-54 | preferences validate exactly when the maximum cooking time is within 10..300 |
| Schemas.DefaultPreferencesValid | adk_backend/app/models/schemas.py:47-54 | the default preferences (60 minutes, easy) validate |
| Schemas.ValidateMealPlan | adk_backend/app/models/schemas.py:122-135 | a plan validates exactly when total cooking time ≥ 1, nutrition score in 0..100 and confidence in 0..1 |
| Schemas.ValidateMealPlanningRequest | adk_backend/app/models/schemas.py:151-161 | a request validates exactly when it has at least one refrigerator item |
| Schemas.ValidateNutritionResult | adk_backend/app/models/schemas.py:188-190 | a nutrition result validates exactly when its score is in 0..100 |
| ModelCall.JsonBounds | adk_backend/app/agents/ingredient_analysis_agent.py:221-224 | the span from the first `{` to the last `}` exists exactly when some `{` precedes some `}` |
| ModelCall.JsonSpan | adk_backend/app/agents/ingredient_analysis_agent.py:221-225 | the extracted text starts with `{` and ends with `}`, and exists exactly when the bounds do |
| ModelCall.JsonSpanOfObject | adk_backend/app/agents/ingredient_analysis_agent.py:221-225 | a reply that is one object surrounded by brace-free text gives back exactly that object |
| ModelCall.ModelJson | adk_backend/app/agents/ingredient_analysis_agent.py:174-233 | no key or no reply gives no answer (the fallback); otherwise the answer is the parse of the extracted span |
| ModelCall.EmptyReplyFallsBack | adk_backend/app/agents/ingredient_analysis_agent.py:219-229 | an empty reply gives no answer |
| IngredientAnalysis.DetermineExpiryPriority | adk_backend/app/agents/ingredient_analysis_agent.py:142-153 | urgent iff ≤ 1 day, soon iff 2..3, fresh iff 4..7, long term iff ≥ 8 |
| IngredientAnalysis.PriorityMonotone | adk_backend/app/agents/ingredient_analysis_agent.py:142-153 | fewer days never give a less urgent priority |
| IngredientAnalysis.TranslateCategory | adk_backend/app/agents/ingredient_analysis_agent.py:155-170 | a known lower-cased category maps to its Japanese name, any other is kept as given |
| IngredientAnalysis.TranslateCategoryIdempotent | adk_backend/app/agents/ingredient_analysis_agent.py:155-170 | translating a translated category changes nothing |
| IngredientAnalysis.DaysText | adk_backend/app/agents/ingredient_analysis_agent.py:189 | the split fails (IndexError) exactly when the note has no `まで` |
| IngredientAnalysis.NoteRoundTrip | adk_backend/app/agents/ingredient_analysis_agent.py:132 | the day count read back from a written note is the one it was written from |
| IngredientAnalysis.ToIngredient | adk_backend/app/agents/ingredient_analysis_agent.py:121-133 | name, quantity, unit, expiry date, image address and product id come from the product, the category is its translated category, the priority and the note follow from the days to expiry, and the ingredient is available and not for shopping |
| IngredientAnalysis.SortIsSorted | adk_backend/app/agents/ingredient_analysis_agent.py:138 | the sorted list is non-decreasing in priority score |
| IngredientAnalysis.SortIsPermutation | adk_backend/app/agents/ingredient_analysis_agent.py:138 | the sorted list is a permutation of the input |
| IngredientAnalysis.SortIsStable | adk_backend/app/agents/ingredient_analysis_agent.py:138 | ingredients of equal score keep their relative order (Python's sort is stable) |
| IngredientAnalysis.BucketSnoc | adk_backend/app/agents/ingredient_analysis_agent.py:138 | a new ingredient joins exactly the group of its score |
| IngredientAnalysis.FilterGroups | adk_backend/app/agents/ingredient_analysis_agent.py:99-100 | the filters distribute over the four score groups of the sorted list |
| IngredientAnalysis.BucketFiltered | adk_backend/app/agents/ingredient_analysis_agent.py:99-100 | filtering a score group by a score keeps it whole or empties it |
| IngredientAnalysis.FilterSelectsGroups | adk_backend/app/agents/ingredient_analysis_agent.py:99-100 | a filter that keeps the leading groups selects exactly them |
| IngredientAnalysis.PriorityIngredientsArePrefix | adk_backend/app/agents/ingredient_analysis_agent.py:99 | `priority_ingredients` is the urgent group then the soon group, a prefix of the sorted list |
| IngredientAnalysis.ExpiringSoonIsPrefix | adk_backend/app/agents/ingredient_analysis_agent.py:100 | `expiring_soon` is the urgent group, a prefix of the sorted list |
| IngredientAnalysis.Convert | adk_backend/app/agents/ingredient_analysis_agent.py:114-135 | one ingredient per product, in order |
| IngredientAnalysis.SortKeepsElements | adk_backend/app/agents/ingredient_analysis_agent.py:138 | sorting keeps the length and only the input's elements |
| IngredientAnalysis.AnalyzeIngredients | adk_backend/app/agents/ingredient_analysis_agent.py:110-140 | the loop builds the converted products, sorted by priority: one per product, sorted, all available and not to be bought |
| IngredientAnalysis.MockRecommendations | adk_backend/app/agents/ingredient_analysis_agent.py:235-250 | between one and three messages, the fixed closing advice always last |
| IngredientAnalysis.MockRecommendationsMessages | adk_backend/app/agents/ingredient_analysis_agent.py:235-250 | the urgent message appears iff some ingredient is urgent, a soon message iff some is soon |
| IngredientAnalysis.Summary | adk_backend/app/agents/ingredient_analysis_agent.py:179-190 | the prompt summary has one line per ingredient and succeeds iff every line does |
| IngredientAnalysis.SummaryOfAnalysedSucceeds | adk_backend/app/agents/ingredient_analysis_agent.py:132-189 | the summary of analysed ingredients never fails, since every note holds `まで` |
| IngredientAnalysis.GenerateAiRecommendations | adk_backend/app/agents/ingredient_analysis_agent.py:172-233 | without a key or a usable answer the fallback messages, otherwise the model's list |
| IngredientAnalysis.Process | adk_backend/app/agents/ingredient_analysis_agent.py:79-104 | the result holds the sorted ingredients, their urgent-or-soon and urgent filters and the recommendations |
| RecipeSuggestion.PriorityNameFilterEmpty | adk_backend/app/agents/recipe_suggestion_agent.py:256-260 | the fallback's filter on `priority.name in ['urgent', 'soon']` keeps nothing, since member names are upper case |
| RecipeSuggestion.FirstByName | adk_backend/app/agents/recipe_suggestion_agent.py:422-425 | the first available ingredient with the wanted name, or none when no ingredient has it |
| RecipeSuggestion.ResolveIngredient | adk_backend/app/agents/recipe_suggestion_agent.py:420-446 | a missing name raises KeyError; a found ingredient is copied with quantity, unit and availability overridden; otherwise a new one with defaults `適量`, `g`, not available, to be bought, which fails exactly when the priority is not a value |
| RecipeSuggestion.ResolveAll | adk_backend/app/agents/recipe_suggestion_agent.py:418-446 | succeeds exactly when every ingredient resolves, giving one resolved ingredient per entry in order |
| RecipeSuggestion.ResolveAllStopsAtFailure | adk_backend/app/agents/recipe_suggestion_agent.py:418-446 | the first ingredient that fails decides the raised error |
| RecipeSuggestion.NumberSteps | adk_backend/app/agents/recipe_suggestion_agent.py:451-454 | steps are numbered from 1 in order and keep their text |
| RecipeSuggestion.NutritionFrom | adk_backend/app/agents/recipe_suggestion_agent.py:460-465 | calories, protein, carbohydrates and fat are each the reply's value or 0 when missing, and all four are 0 without nutrition data |
| RecipeSuggestion.MealItemSpecShape | adk_backend/app/agents/recipe_suggestion_agent.py:410-479 | a built item is valid, in its category, with its ingredients resolved in order, steps numbered from 1, cooking time 30 and difficulty easy by default; and it is built whenever every part validates |
| RecipeSuggestion.CreateMealItem | adk_backend/app/agents/recipe_suggestion_agent.py:410-479 | the loop over the suggested ingredients gives the item, or the first error, of the meal-item specification |
| RecipeSuggestion.Process | adk_backend/app/agents/recipe_suggestion_agent.py:90-130 | the four items are built from the model's suggestion or the fallback, and the summary fields are parsed; the result or the first error |
| RecipeSuggestion.MockSuggestionSucceeds | adk_backend/app/agents/recipe_suggestion_agent.py:254-408 | without a model the stage succeeds: main dish named after the first analysed ingredient (or 野菜炒め), dishes of 15, 5, 10 and 30 minutes, reported total 30, easy, score 80, confidence 0.8 |
| CookingOptimization.TruncDiv | adk_backend/app/agents/cooking_optimization_agent.py:227 | Python's `int()` of a quotient: truncation toward zero, stated for all four sign combinations (floor division of the magnitudes, negated when exactly one operand is negative) |
| CookingOptimization.OptimizedTime | adk_backend/app/agents/cooking_optimization_agent.py:227 | the optimised time is at least 5; below 7 minutes it is exactly 5, from 7 minutes on it is 80% truncated and never longer than the original |
| CookingOptimization.OptimizedTimeMonotone | adk_backend/app/agents/cooking_optimization_agent.py:227 | a longer dish never gets a shorter optimised time |
| CookingOptimization.InsertDesc | adk_backend/app/agents/cooking_optimization_agent.py:223 | inserting adds exactly one element |
| CookingOptimization.SortDesc | adk_backend/app/agents/cooking_optimization_agent.py:223 | the sort keeps the length |
| CookingOptimization.InsertDescSorted | adk_backend/app/agents/cooking_optimization_agent.py:223 | inserting into a descending list keeps it descending and adds exactly the new element |
| CookingOptimization.SortDescSortedPermutation | adk_backend/app/agents/cooking_optimization_agent.py:223 | `sorted(..., reverse=True)` is descending by cooking time and a permutation of the dishes |
| CookingOptimization.InsertDescStable | adk_backend/app/agents/cooking_optimization_agent.py:223 | an inserted element goes after the elements of equal key |
| CookingOptimization.InsertFirstStable | adk_backend/app/agents/cooking_optimization_agent.py:223 | putting a strictly longer dish first leaves the order of each key group as insertion would |
| CookingOptimization.SortDescStable | adk_backend/app/agents/cooking_optimization_agent.py:223 | dishes of equal cooking time keep their given order (the sort is stable) |
| CookingOptimization.OptTimes | adk_backend/app/agents/cooking_optimization_agent.py:225-227 | one optimised time per dish, in order |
| CookingOptimization.EfficiencyBounds | adk_backend/app/agents/cooking_optimization_agent.py:252-254 | the efficiency is capped at 100, is at least 70 when the total does not exceed the original time, and can be negative (one minute of dishes, a 5-minute total) |
| CookingOptimization.MockOptimization | adk_backend/app/agents/cooking_optimization_agent.py:212-261 | the loop over the sorted dishes builds the rule-based entries, the back-to-back schedule, the total and the efficiency, or raises as the source does: ValueError for no dishes, ZeroDivisionError for a zero time sum |
| CookingOptimization.ScheduleBackToBack | adk_backend/app/agents/cooking_optimization_agent.py:239-247 | each slot starts where the previous one ended, durations do not increase and are at least 5, and only the first slot is not parallel |
| CookingOptimization.MockTotalIsMax | adk_backend/app/agents/cooking_optimization_agent.py:249-250 | the rule-based total is the longest dish's optimised time, at least 5 and no more than the sequential schedule |
| CookingOptimization.SumPositiveAtLeast | adk_backend/app/agents/cooking_optimization_agent.py:253 | the original time of non-negative dishes is at least any one dish |
| CookingOptimization.FromModel | adk_backend/app/agents/cooking_optimization_agent.py:199-204 | the model's lists are kept; the total defaults to 30, is kept when at least 1 and becomes 1 below that; the efficiency defaults to 75, is kept inside 0..100 and saturates to 100 above and 0 below |
| CookingOptimization.ZipOne | adk_backend/app/agents/cooking_optimization_agent.py:271-281 | the optimised dish takes the entry's time (or keeps its own) in both places, appends the entry's tips and is otherwise unchanged |
| CookingOptimization.CreateOptimizedRecipes | adk_backend/app/agents/cooking_optimization_agent.py:263-284 | `zip` pairs dishes and entries by position, as many as the shorter list |
| CookingOptimization.EntryFor | adk_backend/app/agents/cooking_optimization_agent.py:271 | the entry whose name is the dish's name, found exactly when one exists |
| CookingOptimization.MatchByName | adk_backend/app/agents/cooking_optimization_agent.py:263-284 | the corrected pairing: every dish is matched to its own entry by name, one result per dish |
| CookingOptimization.MatchByNameGetsOwnTime | adk_backend/app/agents/cooking_optimization_agent.py:223-277 | matched by name, every dish gets its own optimised time |
| CookingOptimization.Process | adk_backend/app/agents/cooking_optimization_agent.py:82-118 | the model's or the rule-based optimisation, with the dishes zipped onto its entries; the failure of the rule-based answer is passed on |
| CookingOptimization.LongestExample | adk_backend/app/agents/cooking_optimization_agent.py:223 | dishes of 30, 20, 10 and 40 minutes are visited as 40, 30, 20, 10 |
| CookingOptimization.SumExample | adk_backend/app/agents/cooking_optimization_agent.py:253 | their original time is 100 |
| CookingOptimization.MockExample | adk_backend/app/agents/cooking_optimization_agent.py:223-277 | their rule-based total is 32 with efficiency 100, and the positional zip gives the dishes 32, 24, 16 and 8 minutes, each another dish's time |
| MealTheme.Season | adk_backend/app/agents/meal_theme_agent.py:322-332 | winter exactly for December to February, spring for March to May, summer for June to August, autumn for September to November |
| MealTheme.DifficultyToScore | adk_backend/app/agents/meal_theme_agent.py:334-342 | every difficulty maps to a score from 1 to 4 |
| MealTheme.ScoreToDifficulty | adk_backend/app/agents/meal_theme_agent.py:344-353 | easy exactly up to 1.5, medium up to 2.5, hard up to 3.5, expert above |
| MealTheme.DifficultyScaleRoundTrip | adk_backend/app/agents/meal_theme_agent.py:334-353 | a level's own score maps back to that level, and a higher mean never gives an easier level |
| MealTheme.Scores | adk_backend/app/agents/meal_theme_agent.py:273 | one difficulty score per dish, in order |
| MealTheme.MeanOfEqualLevels | adk_backend/app/agents/meal_theme_agent.py:273-274 | dishes all of one difficulty have a mean score that maps back to that difficulty |
| MealTheme.ThemeFor | adk_backend/app/agents/meal_theme_agent.py:257-269 | the Japanese home-cooking theme if any dish name holds 和 or 味噌, else the Chinese stir-fry theme for 中華 or 炒め, else the vegetable theme for 野菜 or サラダ, else the season's home-cooking theme |
| MealTheme.MisoWins | adk_backend/app/agents/meal_theme_agent.py:258-260 | one miso dish anywhere decides the Japanese theme |
| MealTheme.MockSlot | adk_backend/app/agents/meal_theme_agent.py:281-304 | slot `i` takes dish `i`'s name and time when there is one, otherwise the slot's fixed name and time, and always the overall level |
| MealTheme.MockTheme | adk_backend/app/agents/meal_theme_agent.py:252-320 | fails exactly for no dishes (division by zero); otherwise the theme of `ThemeFor`, total time the sum of the dishes, the mean difficulty, score 85, confidence 0.8 and the request's date |
| MealTheme.FromModel | adk_backend/app/agents/meal_theme_agent.py:234-243 | each field present in the reply is kept and each missing one takes its default: the theme name, the description, an empty plan and the green-white-brown homely visual style |
| MealTheme.DefaultMealItem | adk_backend/app/agents/meal_theme_agent.py:380-403 | a valid 20-minute easy item of the given name, with one step and no ingredients |
| MealTheme.Slot | adk_backend/app/agents/meal_theme_agent.py:368-371 | slot `i` is dish `i` when there is one, otherwise the default item named for the slot |
| MealTheme.CreateUnifiedMealPlan | adk_backend/app/agents/meal_theme_agent.py:355-378 | the four slots, status suggested, each field the reply's value or its default; it is built exactly when the difficulty is a value and the plan validates, and an unknown difficulty raises ValueError |
| MealTheme.ThemeWith | adk_backend/app/agents/meal_theme_agent.py:85-120 | for a given spelling of the rule-based level, the stage fails when the chosen theme data fails, and otherwise carries its theme and the unified plan built from it |
| MealTheme.Process | adk_backend/app/agents/meal_theme_agent.py:85-120 | the stage as written, the rule-based level spelled by member name: it fails whenever it falls back, and a model answer gives what the corrected stage gives |
| MealTheme.AsWrittenMockAlwaysFails | adk_backend/app/agents/meal_theme_agent.py:285-373 | as written, the rule-based path always fails: the level is written by member name and parsed by value |
| MealTheme.CorrectedMockSucceeds | adk_backend/app/agents/meal_theme_agent.py:252-378 | writing the level by value, the rule-based path succeeds with the expected theme, total time, mean difficulty, score, confidence, first dish and date |
| ImageGeneration.PlaceholderUrl | adk_backend/app/agents/image_generation_agent.py:237-241 | the placeholder address is the fixed prefix followed by the dish name with every space turned into `+` |
| ImageGeneration.PlaceholderUrlInjective | adk_backend/app/agents/image_generation_agent.py:237-241 | two names without `+` get the same placeholder only when they are equal |
| ImageGeneration.Take8 | adk_backend/app/agents/image_generation_agent.py:234 | `[:8]` keeps the first eight characters, or all of a shorter string |
| ImageGeneration.ImagenUrl | adk_backend/app/agents/image_generation_agent.py:229-235 | the simulated address is the storage prefix, then the first eight characters of the prompt's digest (all of it when shorter), then `.jpg` |
| ImageGeneration.PromptDefaults | adk_backend/app/agents/image_generation_agent.py:166-171 | missing mood, lighting, composition and palette read as appetizing, natural, professional and `warm, natural`; given ones are used |
| ImageGeneration.StripFramed | adk_backend/app/agents/image_generation_agent.py:194 | stripping a body framed by two newlines gives back the body |
| ImageGeneration.ImagePromptShape | adk_backend/app/agents/image_generation_agent.py:151-194 | every prompt starts with the dish's name and description and ends with the list of things to avoid |
| ImageGeneration.OptimizePrompt | adk_backend/app/agents/image_generation_agent.py:196-227 | with no key, no reply or an empty reply the prompt is kept; otherwise the stripped reply replaces it |
| ImageGeneration.AiImage | adk_backend/app/agents/image_generation_agent.py:98-137 | one dish's record names the dish; a failed attempt gives the placeholder address and a placeholder record, and only then |
| ImageGeneration.MockImage | adk_backend/app/agents/image_generation_agent.py:250-264 | one dish's rule-based image is its placeholder with a mock record |
| ImageGeneration.GenerateAiImages | adk_backend/app/agents/image_generation_agent.py:90-145 | one address and one record per dish, in order, each that dish's model-path image, whether the attempt failed or not |
| ImageGeneration.MockImages | adk_backend/app/agents/image_generation_agent.py:243-272 | one placeholder address and one mock record per dish, in order |
| ImageGeneration.Process | adk_backend/app/agents/image_generation_agent.py:60-88 | fails with AttributeError exactly when the settings do not declare the OpenAI key; otherwise one image per dish, from the model path when the key is set and the rule-based path when it is empty |
| UserPreference.TimeFromInput | adk_backend/app/agents/user_preference_conversation_agent.py:228-234 | 30 minutes when the input mentions 30分, else 60 for 1時間 or 60分, else 15 for 15分, else the default 60 |
| UserPreference.WithinImpliesMinutes | adk_backend/app/agents/user_preference_conversation_agent.py:229 | the `30分以内` test adds nothing to the `30分` test |
| UserPreference.DifficultyFromInput | adk_backend/app/agents/user_preference_conversation_agent.py:237-241 | hard exactly when 難しい or 上級 is mentioned, medium exactly when not and 普通 or 中級 is, otherwise easy; always a valid level |
| UserPreference.Questions | adk_backend/app/agents/user_preference_conversation_agent.py:275-285 | one to three questions: each topic's question is asked exactly when that list is empty, and the catch-all exactly when none is |
| UserPreference.FilterTwo | adk_backend/app/agents/user_preference_conversation_agent.py:251-255 | checking two keywords in order keeps those that match, in order |
| UserPreference.FilterThree | adk_backend/app/agents/user_preference_conversation_agent.py:258-264 | checking three keywords in order keeps those that match, in order |
| UserPreference.CuisinesInOrder | adk_backend/app/agents/user_preference_conversation_agent.py:258-264 | the cuisines are reported in the fixed order 和食, イタリアン, 中華 |
| UserPreference.AllergyRule | adk_backend/app/agents/user_preference_conversation_agent.py:244-248 | an allergy is recorded exactly when it and アレルギー are mentioned; none without アレルギー; both in order when both are |
| UserPreference.CuisineRule | adk_backend/app/agents/user_preference_conversation_agent.py:258-264 | each cuisine is recorded exactly when one of its two keywords is mentioned |
| UserPreference.AllergiesNamed | adk_backend/app/agents/user_preference_conversation_agent.py:244-248 | the appends give the allergy keywords the input names, in order |
| UserPreference.DislikesNamed | adk_backend/app/agents/user_preference_conversation_agent.py:250-255 | the appends give the disliked foods the input names together with 嫌い or 苦手, in order |
| UserPreference.PreferredCuisines | adk_backend/app/agents/user_preference_conversation_agent.py:257-264 | the appends give the cuisines the input names, in order |
| UserPreference.NextQuestions | adk_backend/app/agents/user_preference_conversation_agent.py:275-285 | the appends give the questions for the missing topics, or the catch-all |
| UserPreference.MockConversation | adk_backend/app/agents/user_preference_conversation_agent.py:220-299 | on the lower-cased input: the time, difficulty, allergies, dislikes and cuisines of the keyword rules, no restrictions, confidence 0.7, and a profile for `user_123` holding the original input |
| UserPreference.ParsePreferences | adk_backend/app/agents/user_preference_conversation_agent.py:301-311 | missing keys take 60, easy and empty lists; an unknown difficulty raises ValueError; it succeeds exactly when the difficulty is a value and the time lies in 10..300 |
| UserPreference.EmptyParsesToDefaults | adk_backend/app/agents/user_preference_conversation_agent.py:301-311 | an empty dictionary parses to the default preferences |
| UserPreference.MockPreferencesParse | adk_backend/app/agents/user_preference_conversation_agent.py:228-311 | the rule-based preferences always parse |
| UserPreference.FromModel | adk_backend/app/agents/user_preference_conversation_agent.py:207-212 | confidence defaults to 0.5, is kept inside 0..1 and saturates to 1.0 above and 0.0 below; missing parts become empty |
| UserPreference.Process | adk_backend/app/agents/user_preference_conversation_agent.py:79-111 | without a model answer the stage succeeds with the parsed rule-based preferences, confidence 0.7, the rule-based questions (at least one) and profile; with one, it succeeds exactly when the cleaned preferences parse, and carries them |
| NutritionBalance.BranchOf | adk_backend/app/agents/nutrition_balance_agent.py:120-141 | the branch of a lower-cased category, tested in the source's order: produce for 野菜/果物, else meat and fish for 肉/魚, else dairy for 乳製品, else staple for 主食/米, else the default |
| NutritionBalance.Contribution | adk_backend/app/agents/nutrition_balance_agent.py:124-141 | each branch adds non-negative amounts, carbohydrates in multiples of 5, and protein exactly for meat, fish and dairy |
| NutritionBalance.CalculateBasicNutrition | adk_backend/app/agents/nutrition_balance_agent.py:109-146 | the loop's four totals are the sum of the ingredients' contributions |
| NutritionBalance.SumTotalsSnoc | adk_backend/app/agents/nutrition_balance_agent.py:116-141 | one more ingredient adds exactly its contribution |
| NutritionBalance.SumTotalsAppend | adk_backend/app/agents/nutrition_balance_agent.py:116-141 | the totals of two lists together are the sum of their totals |
| NutritionBalance.SumTotalsShape | adk_backend/app/agents/nutrition_balance_agent.py:116-141 | every total is non-negative and the carbohydrates are a multiple of 5 |
| NutritionBalance.ProteinFromMeatFishAndDairy | adk_backend/app/agents/nutrition_balance_agent.py:127-134 | the protein total is 20 per meat or fish ingredient plus 8 per dairy ingredient |
| NutritionBalance.MockScore | adk_backend/app/agents/nutrition_balance_agent.py:252-261 | the fallback score is at most 100, and at least 0 for non-negative totals |
| NutritionBalance.MockScoreSaturates | adk_backend/app/agents/nutrition_balance_agent.py:254-261 | seven or more categories alone give 100 |
| NutritionBalance.MockResultRules | adk_backend/app/agents/nutrition_balance_agent.py:263-291 | each warning appears exactly under its rule (protein < 30, carbohydrates < 100, fewer than 4 categories), with its suggestion at the same position; with none the only suggestion is the positive message; the recommended amounts are exactly protein 60, carbohydrates 200, fat 50 and fiber 25 |
| NutritionBalance.MockRecommendations | adk_backend/app/agents/nutrition_balance_agent.py:246-291 | the rule-by-rule appends give the fallback result |
| NutritionBalance.ClampScore | adk_backend/app/agents/nutrition_balance_agent.py:228 | `max(0, min(100, v))` lies in 0..100, keeps values already there and saturates the others |
| NutritionBalance.ListOrEmpty | adk_backend/app/agents/nutrition_balance_agent.py:230-237 | a list field is kept; a missing one or a non-list becomes `[]` |
| NutritionBalance.FromModel | adk_backend/app/agents/nutrition_balance_agent.py:227-238 | the score defaults to 75 and a present score is `ClampScore` of the reply's value; the nutrient map and the two lists default to empty, a non-list becoming empty too |
| NutritionBalance.Process | adk_backend/app/agents/nutrition_balance_agent.py:74-107 | the model's cleaned answer or the fallback for the ingredients' totals; either way the result validates |
| MealPlanningService.OrderSplits | adk_backend/app/services/meal_planning_service.py:45-117 | the six stages run in the order ingredient analysis, nutrition, recipes, cooking, theme, images |
| MealPlanningService.UrlAt | adk_backend/app/services/meal_planning_service.py:120-123 | the `i`-th address when the list is long enough, otherwise none |
| MealPlanningService.PlanningFailure | adk_backend/app/services/meal_planning_service.py:154-165 | every failure is re-raised as `MEAL_PLANNING_FAILED` with status 500 and the original message appended |
| MealPlanningService.AddImages | adk_backend/app/services/meal_planning_service.py:100-126 | step 6 with the `image_url` field present copies the image addresses onto the four dishes by position, or leaves them untouched when the image stage raised; without the field (as written: `MealItem` declares none, schemas.py:109-119) the first copy raises, the error is swallowed and the dishes stay untouched |
| MealPlanningService.AnalyseInputs | adk_backend/app/services/meal_planning_service.py:45-59 | steps 1 and 2: the sorted analysed ingredients and the nutrition of exactly those ingredients |
| MealPlanningService.Finish | adk_backend/app/services/meal_planning_service.py:70-143 | steps 4 to 6 and the plan as written (the theme fallback spells the level by member name, and step 6 finds no `image_url` field): the stages started and the plan or the first failure of cooking or theme |
| MealPlanningService.SuggestMealPlan | adk_backend/app/services/meal_planning_service.py:36-165 | the run as written (so it fails whenever the theme stage falls back, see `RuleBasedThemeFailsRun`): its plan or error, the stages started (a prefix of the six, at least three, all six on success), and every error is `MEAL_PLANNING_FAILED` with status 500 |
| MealPlanningService.StagesRunShape | adk_backend/app/services/meal_planning_service.py:45-165 | a run starts a prefix of the six stages, at least three, all six when it succeeds, and every failure is `MEAL_PLANNING_FAILED` with status 500 |
| MealPlanningService.ImageStepOnlyAddsPictures | adk_backend/app/services/meal_planning_service.py:100-126 | whatever the image settings, the run succeeds or fails alike and the plans differ only in pictures |
| MealPlanningService.AssembleIgnoresPictures | adk_backend/app/services/meal_planning_service.py:100-143 | steps 4 to 6 with other image settings give the same outcome up to the pictures |
| MealPlanningService.PlanProvenance | adk_backend/app/services/meal_planning_service.py:128-143 | the household from the request, the dishes, difficulty and confidence from the suggestion, the total time from the cooking stage, the score from the nutrition stage, and a plan that validates |
| MealPlanningService.RuleBasedTotalTime | adk_backend/app/services/meal_planning_service.py:84-137 | for either spelling of the theme level, whenever the cooking stage falls back (always without a model key) a plan's total time is the optimised time of its longest dish, at least 5 |
| MealPlanningService.RuleBasedThemeFailsRun | adk_backend/app/services/meal_planning_service.py:86-165 | as written, every run whose theme stage falls back (every run without a model key) fails with `MEAL_PLANNING_FAILED` and status 500 |
| MealPlanningService.CorrectedRuleBasedRunsSucceed | adk_backend/app/services/meal_planning_service.py:45-150 | corrected (level spelled by value, `image_url` field present), every run without a model key yields a plan, of total time at least 5 |
| MealPlanningService.RuleBasedDishesOf | adk_backend/app/services/meal_planning_service.py:61-82 | without a model key step 3 succeeds with the rule-based dishes of 15, 5, 10 and 30 minutes and confidence 0.8 |
| MealPlanningService.RuleBasedStagesSucceed | adk_backend/app/services/meal_planning_service.py:84-98 | without a model key and with the level spelled by value, those dishes pass the cooking stage (total at least 5) and the theme stage |
| MealPlanningService.RuleBasedThemeFailsAssemble | adk_backend/app/services/meal_planning_service.py:86-98 | as written, steps 4 to 6 fail whenever the theme stage falls back |
| MealPlanningService.PlansAsConfiguredGetNoPictures | adk_backend/app/services/meal_planning_service.py:100-126 | as written (no `image_url` field on meal items), and also with the key undeclared as configured, every dish of the plan is exactly the dish the suggestion gave |
| MealPlanningService.PlansWithDeclaredKeyGetPictures | adk_backend/app/services/meal_planning_service.py:100-126 | corrected, with the `image_url` field present and the key declared, every dish gets a picture, the placeholder when the key is empty |
| MealPlanningService.ToShoppingItem | adk_backend/app/services/meal_planning_service.py:241-250 | an entry copies the ingredient's name, quantity, unit, category and notes, is not custom and is added by the agent |
| MealPlanningService.ToShoppingItems | adk_backend/app/services/meal_planning_service.py:238-251 | one entry per ingredient, in order |
| MealPlanningService.GenerateShoppingList | adk_backend/app/services/meal_planning_service.py:220-258 | the loop's list is the entries of the plan's ingredients that need buying, in order |
| MealPlanningService.ShoppingListMembers | adk_backend/app/services/meal_planning_service.py:228-251 | every ingredient marked for shopping or missing from the inventory (names compared in lower case) has its entry, and every entry comes from such an ingredient |
| MealPlanningService.ShoppingListByDish | adk_backend/app/services/meal_planning_service.py:231-251 | the list follows main, side, soup, rice without merging repeats; with an empty inventory every ingredient is listed |
| MealPlanningService.Feedback | adk_backend/app/services/meal_planning_service.py:272-293 | spiciness appends `spicy_food`; length takes 10 minutes off, not below 10; simplicity sets easy; nothing else changes |
| MealPlanningService.FeedbackKeepsPreferencesValid | adk_backend/app/services/meal_planning_service.py:284-291 | feedback keeps valid preferences valid and never raises the limit; a reason with no marker changes nothing; the second simplicity marker adds nothing |
| MealPlanningService.StringList.constructor | adk_backend/app/services/meal_planning_service.py:282 | a list object holding the given items |
| MealPlanningService.StringList.Append | adk_backend/app/services/meal_planning_service.py:285 | `append` adds one item at the end |
| MealPlanningService.Preferences.constructor | adk_backend/app/services/meal_planning_service.py:170-185 | a preferences object with lists of its own holding the given value |
| MealPlanningService.Preferences.Copy | adk_backend/app/services/meal_planning_service.py:282 | `copy()` is shallow: the scalar fields are copied and the lists are shared |
| MealPlanningService.ModifyPreferencesFromFeedback | adk_backend/app/services/meal_planning_service.py:272-293 | the copy holds the feedback's preferences; through the shared list the caller's restrictions change too, and its other fields do not |
| MealPlanningService.CollectAll | adk_backend/app/services/meal_planning_service.py:188-205 | gathering the runs succeeds exactly when every run does, with one plan per run in order; otherwise it fails with the first failing run's error |
| MealPlanningService.CollectStopsAtFailure | adk_backend/app/services/meal_planning_service.py:189-197 | once a run fails, the later runs do not change the outcome |
| MealPlanningService.CollectFailsAtFirst | adk_backend/app/services/meal_planning_service.py:189-197 | when the first run fails, the alternatives fail with its error |
| MealPlanningService.Outcomes | adk_backend/app/services/meal_planning_service.py:189-197 | one outcome per run, in order |
| MealPlanningService.AlternativesFailure | adk_backend/app/services/meal_planning_service.py:207-218 | the failure is re-raised as `ALTERNATIVE_PLANNING_FAILED` with status 500 |
| MealPlanningService.PlanAlternatives | adk_backend/app/services/meal_planning_service.py:188-197 | the loop's plans are the runs gathered, stopping at the first failure |
| MealPlanningService.AlternativeWorld | adk_backend/app/services/meal_planning_service.py:290-291 | after a wish for something simpler the recipe and theme stages of an alternative run give no model answer (their prompts read `.name` of the stored string); nothing else about the run changes |
| MealPlanningService.SuggestAlternatives | adk_backend/app/services/meal_planning_service.py:167-218 | three runs as written from the request with the feedback's preferences: all their plans, or the first failure wrapped as `ALTERNATIVE_PLANNING_FAILED`, which is always the outcome after a wish for something simpler; the caller's restrictions keep whatever feedback appended |
| SimpleImageApi.PromptParts | adk_backend/simple_image_api.py:198-199 | a prompt without ':' is all dish name with an empty description; otherwise the dish name is the stripped text before the first ':' |
| SimpleImageApi.FirstMatch | adk_backend/simple_image_api.py:216-221 | the index found is that of a keyword occurring in the search text and no earlier keyword occurs; -1 means none occurs |
| SimpleImageApi.MatchKeywords | adk_backend/simple_image_api.py:217-221 | the loop that stops at the first hit collects exactly the first matching keyword pair, or nothing when none matches |
| SimpleImageApi.FirstMatchIsFirstHit | adk_backend/simple_image_api.py:217-221 | a keyword that occurs, with none before it occurring, is the one the loop stops at |
| SimpleImageApi.SelectPhoto | adk_backend/simple_image_api.py:251-260 | the first collected key's photograph when it has one, the default photograph otherwise; never empty |
| SimpleImageApi.FallbackImageGeneration | adk_backend/simple_image_api.py:194-266 | the fallback always answers with a non-empty photograph URL, the one for the first food word of the lowercased prompt |
| SimpleImageApi.ShadowedKeyword | adk_backend/simple_image_api.py:202-221 | a keyword containing an earlier keyword can never be the first match |
| SimpleImageApi.MeatWords | adk_backend/simple_image_api.py:202-214 | the dictionary lists 肉 before 豚肉 and 牛肉, both of which contain it |
| SimpleImageApi.PorkAndBeefShadowed | adk_backend/simple_image_api.py:202-260 | the pork and beef photographs are unreachable: 肉 is always matched first |
| SimpleImageApi.KeysWithoutPhotoDisjoint | adk_backend/simple_image_api.py:202-248 | nine keywords of the dictionary have no entry in the photograph map |
| SimpleImageApi.KeysWithoutPhotoGetDefault | adk_backend/simple_image_api.py:224-260 | a prompt whose first food word maps to one of those keys gets the default photograph |
| SimpleImageApi.ActualImage | adk_backend/simple_image_api.py:58-192 | without a key, when the call raises or when no image data arrives the answer is the fallback photograph; image data gives a URL under the local static prefix |
| CloudFunctions.CeilDays | functions/index.js:37-39 | the day count is the least whole number of days covering the remaining milliseconds |
| CloudFunctions.StatusFor | functions/index.js:246-257 | 💀 exactly below zero days, 😰 for 0-1, 😟 for 2-3, 😐 for 4-7, 😊 above 7: total over all integers |
| CloudFunctions.StatusMonotone | functions/index.js:246-257 | the further away the expiry, the less alarming the status |
| CloudFunctions.UpdateProductStatus | functions/index.js:233-264 | a deleted document causes no write; otherwise the classified status is written exactly when it differs from the stored one |
| CloudFunctions.UpdateProductStatusSettles | functions/index.js:259-261 | the trigger's own update, firing the trigger again, writes nothing, so the trigger does not loop |
| CloudFunctions.NotificationDays | functions/index.js:25 | a missing or zero notificationDays setting means three days; the window is never zero |
| CloudFunctions.ExpiryNotification | functions/index.js:53-67 | the title names the product, the topic and data name the household and item, and the body says "today" exactly for day 0 and the day count otherwise |
| CloudFunctions.NotifyHousehold | functions/index.js:29-42 | the loop over a household's queried items sends exactly the messages of its items inside the window, in order |
| CloudFunctions.CheckExpiringProducts | functions/index.js:11-50 | the scheduled run sends exactly the messages of every household with notifications enabled, household by household |
| CloudFunctions.HouseholdNotificationsInWindow | functions/index.js:23-41 | every message sent for a household is addressed to that household and is about one of its items inside the window |
| CloudFunctions.WindowDays | functions/index.js:29-39 | an item inside the window is between 0 and the window's days from expiry, and is "today" exactly when it expires now |
| CloudFunctions.NotificationBodiesDiffer | functions/index.js:57-59 | the "today" body and every day-count body differ |
| CloudFunctions.DisabledHouseholdsSkipped | functions/index.js:23 | a household without notifications enabled receives no message |
| CloudFunctions.SuffixLengths | functions/index.js:168-181 | the six prompt endings have six different lengths |
| CloudFunctions.CreatePrompt | functions/index.js:165-182 | the prompt is the base sentence naming product and category followed by the emotion's ending |
| CloudFunctions.PromptsDistinguishEmotions | functions/index.js:165-182 | the five known emotions give five different prompts, each different from the prompt for any other emotion |
| CloudFunctions.GenerateCharacterImage | functions/index.js:78-107 | unauthenticated calls fail first; a missing or empty product name or emotion is an invalid argument; otherwise the uploaded URL, or internal when generation failed |
| CloudFunctions.AsNeeded | functions/index.js:225 | an ingredient line is the ingredient followed by ": 適量" |
| CloudFunctions.RecipesFromGemini | functions/index.js:217-230 | the mock answers one recipe listing every given ingredient, in order, as needed |
| CloudFunctions.AsNeededRoundTrip | functions/index.js:225 | every ingredient name can be read back from its recipe line |
| CloudFunctions.GetRecipeSuggestions | functions/index.js:185-214 | unauthenticated calls fail first; then the call succeeds exactly when ingredients is an array, and answers the mock recipes for it |
| Seeding.Store.constructor | scripts/bulk_insert_products.py:179 | a fresh store has committed nothing |
| Seeding.Store.Commit | scripts/bulk_insert_products.py:199-206 | a commit of at most 500 writes appends that batch, whole, to what is committed |
| Seeding.ChunksAppend | scripts/bulk_insert_products.py:199-206 | after whole batches, a batch of at most 500 further writes is exactly the next commit |
| Seeding.ChunksFlatten | scripts/bulk_insert_products.py:195-206 | the committed batches, concatenated, are exactly the writes made, in order |
| Seeding.ChunksShape | scripts/bulk_insert_products.py:199-206 | n writes take ceil(n/500) commits, each of 1 to 500 writes and all but the last of exactly 500 |
| Seeding.PendingStart | scripts/bulk_insert_products.py:179-180 | before the first write nothing is pending or committed |
| Seeding.PendingAdd | scripts/bulk_insert_products.py:195-199 | a write that does not reach a multiple of 500 stays in the open batch |
| Seeding.PendingFull | scripts/bulk_insert_products.py:199-202 | the 500th write of a batch completes it, and committing it leaves the run with an empty batch |
| Seeding.PendingFinish | scripts/bulk_insert_products.py:205-206 | after the loop the remainder is committed exactly when there is one, and then everything written is committed in chunks |
| Seeding.ItemWrites | scripts/bulk_insert_products.py:195-197 | one set per record, under its own item id, in order |
| Seeding.CodesHaveThirteenDigits | scripts/bulk_insert_products.py:88-94 | the generated JAN codes start with 49 and, like the barcodes, have thirteen digits |
| BulkInsertProducts.DaysUntilExpiry | scripts/bulk_insert_products.py:108 | the day count is the remaining time in whole days, rounded down |
| BulkInsertProducts.DaysUntilExpiryLosesADay | scripts/bulk_insert_products.py:96-108 | measured at the same instant the count is the days drawn; any later instant within a day gives one day less |
| BulkInsertProducts.EmotionFor | scripts/bulk_insert_products.py:109-118 | 😊 exactly above 7 days, 😐 for 4-7, 😟 for 2-3, 😰 for exactly 1, 💀 for 0 or less |
| BulkInsertProducts.EmotionAgreesWithTrigger | scripts/bulk_insert_products.py:109-118 | the script's rule and the status trigger's rule agree on every day count except 0 |
| BulkInsertProducts.CreateSampleProduct | scripts/bulk_insert_products.py:101-137 | the document carries the drawn id, name, category, quantity, unit, price and manufacturer, the JAN code and barcode spelled from the drawn numbers, the household and user, no image or deletion, and the status of its floored day count |
| BulkInsertProducts.SampleProducts | scripts/bulk_insert_products.py:191-194 | one product per draw, in order |
| BulkInsertProducts.BulkInsert | scripts/bulk_insert_products.py:175-215 | every product is written in order, committed in batches of 500 plus the remainder, and the count is the number of products |
| BulkInsertProducts.GeneratedProduct | scripts/bulk_insert_products.py:88-137 | a generated product has thirteen-digit codes, quantity 1-5, price 100-2000, expiry 1-30 days ahead and one of the five statuses |
| BulkInsertProducts.OneDayAheadStoredAsExpired | scripts/bulk_insert_products.py:98-118 | a product drawn one day ahead is stored as 💀 once any time passes between the two clock readings |
| BulkInsertProducts.DaysUntilExpiryRoundedUp | functions/index.js:244 | the day count rounded up, as the status trigger computes it |
| BulkInsertProducts.RoundedUpStatusMatchesTrigger | scripts/bulk_insert_products.py:98-118 | with the count rounded up, a product drawn k days ahead gets the trigger's status for k and is never 💀 |
| BulkInsertProducts.Buckets | scripts/bulk_insert_products.py:231-233 | the fresh, warning and urgent counts never exceed the number of documents |
| BulkInsertProducts.BucketsPartition | scripts/bulk_insert_products.py:231-233 | the three counts add up to the number of documents exactly when every document has one of the five statuses |
| BulkInsertProducts.GeneratedProductsFillBuckets | scripts/bulk_insert_products.py:101-137 | every product the script writes is counted in one of the three buckets |
| BulkInsertWithScenarios.ExpiryScenario | scripts/bulk_insert_with_scenarios.py:27-69 | one product per draw, in order, named by its position, with status 💀 for today, 😰 for tomorrow and 😟 later |
| BulkInsertWithScenarios.BulkScenario | scripts/bulk_insert_with_scenarios.py:71-108 | one product per draw, in order, each with status 😊 |
| BulkInsertWithScenarios.NormalItems | scripts/bulk_insert_with_scenarios.py:127-161 | one ordinary product per draw, in order, with status 😊 above 7 days, 😐 above 3, else 😟 |
| BulkInsertWithScenarios.MixedScenarioHasCount | scripts/bulk_insert_with_scenarios.py:110-161 | the mix has exactly count products: the expiry share, then the bulk share, then ordinary items for the remainder |
| BulkInsertWithScenarios.SharesFit | scripts/bulk_insert_with_scenarios.py:115-118 | the 20% and 30% shares, truncated, never exceed the count together, so the mixed scenario can fill up to the count |
| BulkInsertWithScenarios.ScenarioStatuses | scripts/bulk_insert_with_scenarios.py:41-49 | within their ranges, urgent items are never 😊 or 😐 and are 💀 only for today; ordinary items are never urgent, are 😟 only at 3 days and match the status trigger |
| BulkInsertWithScenarios.ParseScenario | scripts/bulk_insert_with_scenarios.py:168-176 | exactly the names expiry, bulk and mixed are accepted |
| BulkInsertWithScenarios.ScenarioProducts | scripts/bulk_insert_with_scenarios.py:168-176 | every scenario generates exactly count products |
| BulkInsertWithScenarios.BulkInsertScenarioProducts | scripts/bulk_insert_with_scenarios.py:163-203 | an unknown scenario writes nothing; otherwise the scenario's products are written in order, in batches of 500 plus the remainder |
| BulkInsertWithScenarios.ScenarioStatistics | scripts/bulk_insert_with_scenarios.py:214-223 | the loop's counts per status and quantity and price totals are the folds over the documents |
| BulkInsertWithScenarios.StatusCountsCount | scripts/bulk_insert_with_scenarios.py:214-229 | the map counts each status by its number of documents, a missing status counting as 😊, and holds exactly the statuses that occur |
| BulkInsertWithScenarios.PrintedCountsCoverAll | scripts/bulk_insert_with_scenarios.py:225-229 | when every status is one of the five, the five printed counts add up to the number of documents |
| BulkInsertFridgeProducts.CreateFridgeProduct | scripts/bulk_insert_fridge_products.py:100-120 | the product carries the drawn name, category, quantity, unit and manufacturer, the JAN code and barcode spelled from the drawn numbers, an expiry the drawn days ahead in milliseconds, and no scan, image or deletion |
| BulkInsertFridgeProducts.FridgeWrites | scripts/bulk_insert_fridge_products.py:136-145 | one set per product under its assigned document id, in order |
| BulkInsertFridgeProducts.BulkInsertFridge | scripts/bulk_insert_fridge_products.py:122-163 | every product is written in order, in batches of 500 plus the remainder, and the count is the number of products |
| BulkInsertFridgeProducts.Deletes | scripts/bulk_insert_fridge_products.py:221-223 | one delete per fetched document, in order |
| BulkInsertFridgeProducts.ClearExistingProducts | scripts/bulk_insert_fridge_products.py:205-238 | an empty collection is left alone; otherwise every document is deleted, in batches of 500 plus the remainder |
| BulkInsertFridgeProducts.DaysUntil | scripts/bulk_insert_fridge_products.py:188-189 | the day count is the remaining time in whole days, rounded down |
| BulkInsertFridgeProducts.FridgeStatistics | scripts/bulk_insert_fridge_products.py:165-203 | the loop's fresh, warning and urgent counts are the fold over the products' expiry dates |
| BulkInsertFridgeProducts.BucketsSplitDated | scripts/bulk_insert_fridge_products.py:184-196 | the three counts add up to exactly the number of products with a non-zero expiry date |
| BulkInsertFridgeProducts.FreshlyWrittenBucket | scripts/bulk_insert_fridge_products.py:97-120 | a product counted at the instant it is generated is fresh above 7 days ahead, warning above 3, urgent otherwise |
| BulkInsertFridgeProducts.CountedLaterBucket | scripts/bulk_insert_fridge_products.py:177-194 | counted any time up to a day after it was generated, a product has lost a day: fresh only above 8 days ahead, warning above 4, urgent otherwise |

## Left out

- Model calls, prompt text sent to models, logging, `generation_time` and processing times: the calls are oracles (`ModelCall.Oracle`) that answer a parsed reply or raise; nothing is said about the prompts beyond the fields the rules read.
- JSON parsing: a reply's JSON is parsed by a partial function parameter; a type error inside a parsed value is folded into "parse failed".
- Floating point: `int(t * 0.8)` is modelled as truncating `4t / 5`, the efficiency formula as truncating division of the exact fraction, confidences as exact ratios; binary rounding is not modelled.
- The failures of misspelt names are not modelled. The model uses one field per concept and follows the intended data flow past these names, because otherwise nothing after step 3 could be stated at all. They fail in two different ways:
  - Attribute reads raise `AttributeError`: `MealCategory.main` and its siblings (adk_backend/app/agents/recipe_suggestion_agent.py:109-112, so every planning run fails at step 3); `.cookingTime` on a meal item (adk_backend/app/agents/cooking_optimization_agent.py:223, so the cooking fallback raises on every call; also :127, :253, :274 and adk_backend/app/agents/meal_theme_agent.py:129, :272, :284-302); `.copyWith(...)` (adk_backend/app/agents/recipe_suggestion_agent.py:428, adk_backend/app/agents/cooking_optimization_agent.py:273); `recipe.nutritionInfo` (adk_backend/app/agents/recipe_suggestion_agent.py:478).
  - CamelCase constructor keywords are not fields, and pydantic ignores unknown keywords by default. Where the snake_case field is required, the constructor raises `ValidationError`: `RecipeStep(stepNumber=...)` (adk_backend/app/agents/recipe_suggestion_agent.py:452, adk_backend/app/agents/meal_theme_agent.py:390), `Recipe(cookingTime=..., nutritionInfo=...)` (adk_backend/app/agents/recipe_suggestion_agent.py:450-467), `MealItem(cookingTime=..., nutritionInfo=...)` (:469-479, adk_backend/app/agents/meal_theme_agent.py:398), `MealPlan(householdId=..., mainDish=..., ...)` (adk_backend/app/agents/meal_theme_agent.py:364-378). Where it is optional, the value is silently dropped: `Ingredient(shoppingRequired=...)` (adk_backend/app/agents/recipe_suggestion_agent.py:441) leaves `shopping_required` False, and `prepTime`, `servingSize` and `createdAt` leave their defaults.
  - Assigning the undeclared `image_url` on a meal item raises `ValueError`; that one is modelled (see `MealPlanningService.AddImages`).
- `Text.Lower` lowers ASCII letters only; the keywords the code compares are Japanese or ASCII.
- The HTTP layer (FastAPI routers, `main.py`, `/health`, `/generate-image`), Firestore, Cloud Messaging, Cloud Storage and the Vertex AI call are left out; their results are parameters (for example the upload URL of `generateCharacterImage`, the queried documents of `checkExpiringProducts`).
- `getProductInfo` in functions/index.js (the Open Food Facts lookup) is not part of this model.
- CloudFunctions.GetRecipeSuggestions: the `internal` error branch is not modelled, because the mock it guards cannot throw.
- CloudFunctions.UpdateProductStatus: a missing document is the only case of `!newData`; a document whose data is empty is not distinguished.
- SimpleImageApi.ActualImage: the streaming of the model's reply, the uuid4 file name and the file write are abstracted into `ModelOutcome` (the unique name and the guessed extension are inputs).
- Schemas.MealItem: it carries an `imageUrl` field that `MealItem` in adk_backend/app/models/schemas.py:109-119 does not declare, so that the corrected step 6 (`MealPlanningService.Corrected`) has somewhere to put the pictures; as written (`MealPlanningService.AsWritten`) nothing assigns it and it stays as the suggestion built it.
- The service's `image_style` key `style` is not modelled: the agent never reads it, so the mood keeps its default.
- MealPlanningService.Preferences: aliasing is modelled for the preference lists, the only mutable parts `copy()` shares; `Preferences.Separate` is required of fresh preference objects.
- MealPlanningService.AlternativeWorld: it takes the preference object handed to each alternative `MealPlanningRequest` as kept, not re-validated into a level, so the string `"easy"` reaches the prompts.
- MealPlanningService: one `World` (key setting and the model's answers) is fixed per planning run; `SHOPPING_LIST_FAILED` is not modelled because nothing in `generate_shopping_list` can raise on the modelled data.
- The catalogues of the seeding scripts (`FOOD_CATEGORIES`, units, manufacturers, the scenario food tables) are not reproduced: what `random` and `uuid` pick is an input (`Draw`, `ScenarioDraw`, `FridgeDraw`), with the drawn ranges as predicates.
- BulkInsertWithScenarios.DrawsFor: the shares `int(count * 0.2)` and `int(count * 0.3)` are taken as the exact `count * 2 / 10` and `count * 3 / 10`; the binary rounding of `count * 0.2` and `count * 0.3` is not modelled.
- A negative product count for the seeding scripts is not modelled (`count` is a `nat`).
- Server timestamps (`addedDate`, `createdAt`) are not modelled; expiry dates are days ahead (items) or milliseconds (fridge products).
- The per-category queries of the seeding scripts' statistics and their printed output are left out; the counts are modelled.
- The scenario script's documents have no `imageUrl` key; the model's shared record holds `None` there.

## Findings

| source | as written | input that shows it | evidently intended | confidence | as-written member | corrected member |
|---|---|---|---|---|---|---|
| adk_backend/app/agents/meal_theme_agent.py:285 | the fallback stores `overall_difficulty.name` (`EASY`) and the plan is then built with `DifficultyLevel(...)`, which looks members up by value (`easy`) | any dishes, no model key | store the value, so the fallback builds a plan | not executed | MealTheme.AsWrittenMockAlwaysFails | MealTheme.CorrectedMockSucceeds |
| adk_backend/app/agents/cooking_optimization_agent.py:271 | the optimised entries, sorted by time, are zipped by position onto the dishes in their original order | dishes of 30, 20, 10 and 40 minutes get 32, 24, 16 and 8 | each dish gets its own optimised time (24, 16, 8, 32) | not executed | CookingOptimization.MockExample | CookingOptimization.MatchByNameGetsOwnTime |
| adk_backend/app/agents/image_generation_agent.py:72 | `settings.openai_api_key` is read, but the settings class declares no such field, so the stage raises and the service drops its pictures | any run | the key is a declared setting, so dishes get pictures or placeholders (given the field of the next row) | not executed | MealPlanningService.PlansAsConfiguredGetNoPictures | MealPlanningService.PlansWithDeclaredKeyGetPictures |
| adk_backend/app/services/meal_planning_service.py:120 | the image addresses are assigned to `image_url`, which `MealItem` does not declare, so the first assignment raises `ValueError`, the `except` swallows it, and no dish ever gets a picture, whatever the key | any run that reaches step 6 | meal items have an `image_url` field, so the copy succeeds | not executed | MealPlanningService.PlansAsConfiguredGetNoPictures | MealPlanningService.PlansWithDeclaredKeyGetPictures |
| adk_backend/app/services/meal_planning_service.py:98 | the service runs the theme stage, whose fallback always raises (row above); the failure is wrapped as `MEAL_PLANNING_FAILED` | any run without a model key | the fallback's theme is used and the run yields a plan | not executed | MealPlanningService.RuleBasedThemeFailsRun | MealPlanningService.CorrectedRuleBasedRunsSucceed |
| scripts/bulk_insert_products.py:108 | `(expiry - now).days` rounds down, and `now` is read after the expiry date was fixed | a product drawn 1 day ahead, any time passing between the two readings | the status the expiry trigger gives for 1 day (😰), counting days rounded up | not executed | BulkInsertProducts.OneDayAheadStoredAsExpired | BulkInsertProducts.RoundedUpStatusMatchesTrigger |
