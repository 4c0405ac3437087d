/** The contract every agent shares: the constructor's falsy-to-default settings, the
    configuration record, the identity hooks around `process`, and the error hook that
    re-raises what it is given. */
module BaseAgent {
  import opened Wrappers
  import opened Errors

  const DefaultModel: string := "gemini-1.5-pro"
  const DefaultTemperature: real := 0.7
  const DefaultMaxTokens: int := 2048

  /** `model or settings.default_model`: `None` and `""` are falsy. */
  function ModelOrDefault(model: Option<string>): (r: string)
    ensures model.Some? && model.value != "" ==> r == model.value
    ensures model.None? || model.value == "" ==> r == DefaultModel
    ensures r != ""
  {
    if model.Some? && model.value != "" then model.value else DefaultModel
  }

  /** `temperature or settings.default_temperature`: `None` and `0.0` are falsy, so an
      explicit zero temperature is replaced. */
  function TemperatureOrDefault(temperature: Option<real>): (r: real)
    ensures temperature.Some? && temperature.value != 0.0 ==> r == temperature.value
    ensures temperature.None? || temperature.value == 0.0 ==> r == DefaultTemperature
    ensures r != 0.0
  {
    if temperature.Some? && temperature.value != 0.0 then temperature.value else DefaultTemperature
  }

  /** `max_tokens or settings.default_max_tokens`: `None` and `0` are falsy. */
  function MaxTokensOrDefault(maxTokens: Option<int>): (r: int)
    ensures maxTokens.Some? && maxTokens.value != 0 ==> r == maxTokens.value
    ensures maxTokens.None? || maxTokens.value == 0 ==> r == DefaultMaxTokens
    ensures r != 0
  {
    if maxTokens.Some? && maxTokens.value != 0 then maxTokens.value else DefaultMaxTokens
  }

  /** A setting is kept exactly when it is truthy; defaulting twice changes nothing. */
  lemma DefaultingIdempotent(model: Option<string>, temperature: Option<real>, maxTokens: Option<int>)
    ensures ModelOrDefault(Some(ModelOrDefault(model))) == ModelOrDefault(model)
    ensures TemperatureOrDefault(Some(TemperatureOrDefault(temperature))) == TemperatureOrDefault(temperature)
    ensures MaxTokensOrDefault(Some(MaxTokensOrDefault(maxTokens))) == MaxTokensOrDefault(maxTokens)
    ensures TemperatureOrDefault(Some(0.0)) == DefaultTemperature
  {
  }

  datatype AgentConfig = AgentConfig(name: string, model: string, temperature: real, maxTokens: int, systemPrompt: string)

  class Agent {
    var name: string
    var model: string
    var temperature: real
    var maxTokens: int
    /** What the concrete agent's `get_system_prompt` returns. */
    const systemPrompt: string

    constructor (name: string, systemPrompt: string, model: Option<string> := None,
                 temperature: Option<real> := None, maxTokens: Option<int> := None)
      ensures this.name == name && this.systemPrompt == systemPrompt
      ensures this.model == ModelOrDefault(model)
      ensures this.temperature == TemperatureOrDefault(temperature)
      ensures this.maxTokens == MaxTokensOrDefault(maxTokens)
    {
      this.name := name;
      this.systemPrompt := systemPrompt;
      this.model := ModelOrDefault(model);
      this.temperature := TemperatureOrDefault(temperature);
      this.maxTokens := MaxTokensOrDefault(maxTokens);
    }

    /** `get_agent_config`: exactly the four settings and the system prompt. */
    function GetAgentConfig(): (c: AgentConfig)
      reads this
      ensures c.name == name && c.model == model && c.temperature == temperature
      ensures c.maxTokens == maxTokens && c.systemPrompt == systemPrompt
    {
      AgentConfig(name, model, temperature, maxTokens, systemPrompt)
    }

    /** `validate_request` accepts every request. */
    function ValidateRequest<T>(request: T): (r: Result<T, Exception>)
      ensures r == Ok(request)
    {
      Ok(request)
    }

    /** The two hooks around the body are the identity in the base class, and the
        agents do not override them; so each one's contract is that it returns its
        argument. */

    /** `preprocess_request` returns its input unchanged. */
    function PreprocessRequest<T>(request: T): (r: T)
      ensures r == request
    {
      request
    }

    /** `postprocess_response` returns its input unchanged. */
    function PostprocessResponse<R>(response: R): (r: R)
      ensures r == response
    {
      response
    }

    /** `handle_error` logs and re-raises the very error it received. */
    function HandleError<R>(error: Exception): (r: Result<R, Exception>)
      ensures r == Err(error)
    {
      Err(error)
    }

    /** The shape of every agent's `process`: validate, preprocess, run the stage body,
        postprocess; on an exception call `handle_error` and then raise the stage
        error. Since `handle_error` already raised, the stage error is never built. */
    function Process<T, R>(stage: Stage, request: T, body: T -> Result<R, Exception>): (r: Result<R, Exception>)
      ensures r == body(request)
    {
      var checked := ValidateRequest(request);
      var outcome := match checked
        case Ok(req) => body(PreprocessRequest(req))
        case Err(e) => Err(e);
      match outcome
      case Ok(v) => Ok(PostprocessResponse(v))
      case Err(e) =>
        var handled := HandleError<R>(e);
        if handled.Err? then handled
        else Err(App(NewStageError(stage, e.Message())))
    }
  }

  /** No stage ever reports its own wrapped error: whatever escapes `process` is what
      the stage body raised, so a stage error class never appears around a failure of
      the body that was not already one. */
  lemma ProcessPropagatesBodyError<T, R>(a: Agent, stage: Stage, request: T, body: T -> Result<R, Exception>)
    requires body(request).Err?
    ensures a.Process(stage, request, body).Err?
    ensures a.Process(stage, request, body).error == body(request).error
  {
  }
}
