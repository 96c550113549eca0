/**
 * The Anthropic node executor: the Gemini lifecycle without a credential lookup; the
 * API key comes from the process environment.
 */
module AnthropicExecutor {
  import opened Results
  import opened ExecutionContext

  const Channel := "anthropic-execution"
  /** The model name the executor passes to the Anthropic provider, as written. */
  const Model := "gpt-4"

  datatype AnthropicData = AnthropicData(
    variableName: Option<string>,
    systemPrompt: Option<string>,
    userPrompt: Option<string>)

  /**
   * The collaborators: template rendering (may throw), the environment's API key, and
   * the wrapped model call on (API key, model, system prompt, user prompt).
   */
  datatype Services = Services(
    render: (string, Context) -> Result<string>,
    apiKey: string,
    generate: (string, string, string, string) -> Result<seq<GenerationStep>>)

  function Event(nodeId: string, status: Status): StatusEvent {
    StatusEvent(Channel, nodeId, status)
  }

  function Rejected(nodeId: string, message: string): NodeOutcome {
    NodeOutcome([Event(nodeId, Loading), Event(nodeId, Error)], Err(NonRetriable(message)))
  }

  predicate Configured(data: AnthropicData) {
    Truthy(data.variableName) && Truthy(data.userPrompt)
  }

  /** What one invocation publishes and returns or throws. */
  function Outcome(data: AnthropicData, nodeId: string, context: Context, svc: Services): (o: NodeOutcome)
    ensures Lifecycle(o, Channel, nodeId)
    ensures o.result.Ok? ==> Configured(data) && o.result.value.Keys == context.Keys + {data.variableName.value}
  {
    if !Truthy(data.variableName) then Rejected(nodeId, "Anthropic node: Variable name is missing")
    else if !Truthy(data.userPrompt) then Rejected(nodeId, "Anthropic node: User prompt is missing")
    else
      match SystemPrompt(data.systemPrompt, context, svc.render)
      case Err(e) => NodeOutcome([Event(nodeId, Loading)], Err(e))
      case Ok(system) =>
        match svc.render(data.userPrompt.value, context)
        case Err(e) => NodeOutcome([Event(nodeId, Loading)], Err(e))
        case Ok(prompt) =>
          var guarded := GuardedGeneration(Channel, nodeId, context, data.variableName.value,
                                           svc.generate(svc.apiKey, Model, system, prompt));
          NodeOutcome([Event(nodeId, Loading)] + guarded.events, guarded.result)
  }

  /** The executor as the source runs it. */
  method Execute(data: AnthropicData, nodeId: string, context: Context, svc: Services,
                 publisher: Publisher) returns (r: Result<Context>)
    modifies publisher
    ensures publisher.log == old(publisher.log) + Outcome(data, nodeId, context, svc).events
    ensures r == Outcome(data, nodeId, context, svc).result
  {
    publisher.Publish(Event(nodeId, Loading));
    if !Truthy(data.variableName) {
      publisher.Publish(Event(nodeId, Error));
      return Err(NonRetriable("Anthropic node: Variable name is missing"));
    }
    if !Truthy(data.userPrompt) {
      publisher.Publish(Event(nodeId, Error));
      return Err(NonRetriable("Anthropic node: User prompt is missing"));
    }
    var system := SystemPrompt(data.systemPrompt, context, svc.render);
    if system.Err? {
      return Err(system.error);
    }
    var prompt := svc.render(data.userPrompt.value, context);
    if prompt.Err? {
      return Err(prompt.error);
    }
    // try
    var response := svc.generate(svc.apiKey, Model, system.value, prompt.value);
    var text: Result<string> := if response.Ok? then ExtractText(response.value) else Err(response.error);
    if text.Err? {
      // catch: publish `error` and rethrow
      publisher.Publish(Event(nodeId, Error));
      return Err(text.error);
    }
    publisher.Publish(Event(nodeId, Success));
    r := Ok(WithOutput(context, data.variableName.value, text.value));
  }

  // ----- properties of the outcome -----

  /** variableName is checked before userPrompt; each failure publishes `[loading, error]`. */
  lemma ValidationOrder(data: AnthropicData, nodeId: string, context: Context, svc: Services)
    ensures !Truthy(data.variableName) ==>
              Outcome(data, nodeId, context, svc) == Rejected(nodeId, "Anthropic node: Variable name is missing")
    ensures Truthy(data.variableName) && !Truthy(data.userPrompt) ==>
              Outcome(data, nodeId, context, svc) == Rejected(nodeId, "Anthropic node: User prompt is missing")
  {
  }

  /** A configuration error consults no collaborator, so the model is not called. */
  lemma RejectionIgnoresServices(data: AnthropicData, nodeId: string, context: Context, svc1: Services, svc2: Services)
    requires !Configured(data)
    ensures Outcome(data, nodeId, context, svc1) == Outcome(data, nodeId, context, svc2)
  {
  }

  /** Template rendering runs outside the `try`: its exception propagates unchanged after `loading` alone. */
  lemma RenderFailurePublishesNoError(data: AnthropicData, nodeId: string, context: Context, svc: Services)
    requires Configured(data)
    ensures var system := SystemPrompt(data.systemPrompt, context, svc.render);
            var prompt := svc.render(data.userPrompt.value, context);
            var o := Outcome(data, nodeId, context, svc);
            && (system.Err? ==> o == NodeOutcome([Event(nodeId, Loading)], Err(system.error)))
            && (system.Ok? && prompt.Err? ==> o == NodeOutcome([Event(nodeId, Loading)], Err(prompt.error)))
  {
  }

  /**
   * With both fields present and both templates rendered, the model is called with the
   * environment key and the rendered prompts; success binds `{ text }`, a failing call
   * publishes `error` and rethrows the same error.
   */
  lemma ModelCallOutcome(data: AnthropicData, nodeId: string, context: Context, svc: Services)
    requires Configured(data)
    requires SystemPrompt(data.systemPrompt, context, svc.render).Ok?
    requires svc.render(data.userPrompt.value, context).Ok?
    ensures var response := svc.generate(svc.apiKey, Model, SystemPrompt(data.systemPrompt, context, svc.render).value,
                                          svc.render(data.userPrompt.value, context).value);
            var o := Outcome(data, nodeId, context, svc);
            && (response.Err? ==> o == NodeOutcome([Event(nodeId, Loading), Event(nodeId, Error)], Err(response.error)))
            && (response.Ok? && ExtractText(response.value).Ok? ==>
                  o == NodeOutcome([Event(nodeId, Loading), Event(nodeId, Success)],
                                   Ok(WithOutput(context, data.variableName.value, ExtractText(response.value).value))))
            && (response.Ok? && ExtractText(response.value).Err? ==>
                  o == NodeOutcome([Event(nodeId, Loading), Event(nodeId, Error)], Err(ExtractText(response.value).error)))
  {
  }
}
