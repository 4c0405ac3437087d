/** The application's exception taxonomy: every error carries a message, an error
    code, an HTTP status and a details dictionary; agent errors prefix the message
    with the agent's name. Python built-in exceptions that the services let escape
    are kept apart from the application's own. */
module Errors {
  import opened Wrappers

  /** A value stored in an exception's `details` dictionary. */
  datatype Detail = NoValue | Text(text: string)

  /** The seven generative stages, each with its own agent error class. */
  datatype Stage =
    | IngredientAnalysis
    | NutritionBalance
    | RecipeSuggestion
    | CookingOptimization
    | MealTheme
    | ImageGeneration
    | UserPreference

  /** The exception classes, one constructor per class. */
  datatype ErrorClass =
    | MealPlanningError
    | AgentError
    | StageError(stage: Stage)
    | ValidationError
    | ExternalError

  /** Direct base class; `MealPlanningException` is the root. */
  function Parent(c: ErrorClass): Option<ErrorClass> {
    match c
    case MealPlanningError => None
    case AgentError => Some(MealPlanningError)
    case StageError(_) => Some(AgentError)
    case ValidationError => Some(MealPlanningError)
    case ExternalError => Some(MealPlanningError)
  }

  function Depth(c: ErrorClass): nat {
    match c
    case MealPlanningError => 0
    case AgentError => 1
    case StageError(_) => 2
    case ValidationError => 1
    case ExternalError => 1
  }

  /** `issubclass(c, ancestor)` along the `Parent` chain. */
  predicate IsSubclass(c: ErrorClass, ancestor: ErrorClass)
    decreases Depth(c)
  {
    c == ancestor
    || (Parent(c).Some? && Depth(Parent(c).value) < Depth(c) && IsSubclass(Parent(c).value, ancestor))
  }

  /** Every class of the taxonomy derives from `MealPlanningException`, so a handler
      for the base class catches all of them. */
  lemma AllDeriveFromBase(c: ErrorClass)
    ensures IsSubclass(c, MealPlanningError)
  {
    match c
    case MealPlanningError =>
    case AgentError =>
    case StageError(_) =>
      assert IsSubclass(AgentError, MealPlanningError);
    case ValidationError =>
    case ExternalError =>
  }

  datatype MealPlanningException = MealPlanningException(
    cls: ErrorClass,
    message: string,
    errorCode: string,
    statusCode: int,
    details: map<string, Detail>)

  /** The base constructor: code and status default, and missing or empty `details`
      become the empty dictionary. */
  function NewMealPlanningException(
    message: string,
    errorCode: string := "MEAL_PLANNING_ERROR",
    statusCode: int := 500,
    details: Option<map<string, Detail>> := None): (e: MealPlanningException)
    ensures e.cls == MealPlanningError && e.message == message
    ensures e.errorCode == errorCode && e.statusCode == statusCode
    ensures details.None? ==> e.details == map[]
    ensures details.Some? ==> e.details == details.value
  {
    MealPlanningException(MealPlanningError, message, errorCode, statusCode, details.GetOr(map[]))
  }

  function AgentMessage(agentName: string, message: string): string {
    "Agent '" + agentName + "' error: " + message
  }

  /** `AgentException(message, agent_name, ...)`. */
  function NewAgentException(
    message: string,
    agentName: string,
    errorCode: string := "AGENT_ERROR",
    statusCode: int := 500,
    details: Option<map<string, Detail>> := None): (e: MealPlanningException)
    ensures e.cls == AgentError
    ensures e.message == AgentMessage(agentName, message)
    ensures e.errorCode == errorCode && e.statusCode == statusCode
    ensures e.details == details.GetOr(map[])
  {
    NewMealPlanningException(AgentMessage(agentName, message), errorCode, statusCode, details).(cls := AgentError)
  }

  function AgentName(s: Stage): string {
    match s
    case IngredientAnalysis => "ingredient_analysis"
    case NutritionBalance => "nutrition_balance"
    case RecipeSuggestion => "recipe_suggestion"
    case CookingOptimization => "cooking_optimization"
    case MealTheme => "meal_theme"
    case ImageGeneration => "image_generation"
    case UserPreference => "user_preference_conversation"
  }

  function ErrorCode(s: Stage): string {
    match s
    case IngredientAnalysis => "INGREDIENT_ANALYSIS_ERROR"
    case NutritionBalance => "NUTRITION_BALANCE_ERROR"
    case RecipeSuggestion => "RECIPE_SUGGESTION_ERROR"
    case CookingOptimization => "COOKING_OPTIMIZATION_ERROR"
    case MealTheme => "MEAL_THEME_ERROR"
    case ImageGeneration => "IMAGE_GENERATION_ERROR"
    case UserPreference => "USER_PREFERENCE_ERROR"
  }

  /** The stage-specific agent error: fixed agent name and code, status 400. */
  function NewStageError(stage: Stage, message: string, details: Option<map<string, Detail>> := None): (e: MealPlanningException)
    ensures e.cls == StageError(stage) && IsSubclass(e.cls, AgentError)
    ensures e.message == AgentMessage(AgentName(stage), message)
    ensures e.errorCode == ErrorCode(stage) && e.statusCode == 400
    ensures e.details == details.GetOr(map[])
  {
    NewAgentException(message, AgentName(stage), ErrorCode(stage), 400, details).(cls := StageError(stage))
  }

  /** Different stages never share an error code or an agent name. */
  lemma StageErrorsDistinct(s: Stage, t: Stage, m: string, n: string)
    requires s != t
    ensures NewStageError(s, m).errorCode != NewStageError(t, n).errorCode
    ensures AgentName(s) != AgentName(t)
  {
  }

  /** `APIValidationError`: status 400, and `details` is `{"field": field}` updated by
      the caller's details, so a caller's own "field" entry wins. */
  function NewAPIValidationError(message: string, field: Option<string> := None, details: Option<map<string, Detail>> := None): (e: MealPlanningException)
    ensures e.cls == ValidationError && e.message == message
    ensures e.errorCode == "VALIDATION_ERROR" && e.statusCode == 400
    ensures "field" in e.details
    ensures details.Some? && "field" in details.value ==> e.details["field"] == details.value["field"]
    ensures (details.None? || "field" !in details.value) ==>
      e.details["field"] == (if field.Some? then Text(field.value) else NoValue)
    ensures details.Some? ==> forall k :: k in details.value ==> k in e.details && e.details[k] == details.value[k]
    ensures forall k :: k in e.details ==> k == "field" || (details.Some? && k in details.value)
  {
    var fieldValue := if field.Some? then Text(field.value) else NoValue;
    var merged := map["field" := fieldValue] + details.GetOr(map[]);
    NewMealPlanningException(message, "VALIDATION_ERROR", 400, Some(merged)).(cls := ValidationError)
  }

  /** `ExternalAPIError`: status 502 and a message naming the external API. */
  function NewExternalAPIError(message: string, apiName: string, details: Option<map<string, Detail>> := None): (e: MealPlanningException)
    ensures e.cls == ExternalError
    ensures e.message == "External API '" + apiName + "' error: " + message
    ensures e.errorCode == "EXTERNAL_API_ERROR" && e.statusCode == 502
    ensures e.details == details.GetOr(map[])
  {
    NewMealPlanningException("External API '" + apiName + "' error: " + message, "EXTERNAL_API_ERROR", 502, details).(cls := ExternalError)
  }

  /** Python built-in exceptions raised inside the services. */
  datatype BuiltinKind = ValueError | KeyError | IndexError | ZeroDivisionError | AttributeError | PydanticValidationError

  /** Anything a `process` call can raise. */
  datatype Exception =
    | App(app: MealPlanningException)
    | Builtin(kind: BuiltinKind, text: string)
  {
    /** `str(e)`. */
    function Message(): string {
      match this
      case App(a) => a.message
      case Builtin(_, t) => t
    }
  }
}
