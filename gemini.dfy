/**
 * The Gemini node executor: publishes `loading`, validates its configuration, renders
 * the prompts, looks up the user's credential, calls the model and binds `{ text }`
 * under the node's variable name.
 */
module GeminiExecutor {
  import opened Results
  import opened ExecutionContext

  const Channel := "gemini-execution"
  const Model := "gemini-3-flash-preview"

  /** The node's configuration; every field may be absent. */
  datatype GeminiData = GeminiData(
    variableName: Option<string>,
    credentialId: Option<string>,
    systemPrompt: Option<string>,
    userPrompt: Option<string>)

  /** A stored credential: its id, its owner and its encrypted secret. */
  datatype Credential = Credential(id: string, userId: string, value: string)

  /**
   * The collaborators of one invocation:
   * - render: compiling a template and applying it to the context (may throw);
   * - credentials: the credential rows the lookup step reads, or what that step throws;
   * - decrypt: turning a stored secret into an API key (may throw);
   * - generate: the wrapped model call on (API key, model, system prompt, user prompt).
   */
  datatype Services = Services(
    render: (string, Context) -> Result<string>,
    credentials: Result<seq<Credential>>,
    decrypt: string -> Result<string>,
    generate: (string, string, string, string) -> Result<seq<GenerationStep>>)

  function Event(nodeId: string, status: Status): StatusEvent {
    StatusEvent(Channel, nodeId, status)
  }

  /** A configuration error: `error` is published, then a non-retriable error thrown. */
  function Rejected(nodeId: string, message: string): NodeOutcome {
    NodeOutcome([Event(nodeId, Loading), Event(nodeId, Error)], Err(NonRetriable(message)))
  }

  /** An exception raised outside the `try` block: only `loading` was published. */
  function Escaped(nodeId: string, e: Error): NodeOutcome {
    NodeOutcome([Event(nodeId, Loading)], Err(e))
  }

  /** The row matched by `findUnique({ where: { id, userId } })`. */
  function FindCredential(rows: seq<Credential>, id: string, userId: string): (r: Option<Credential>)
    ensures r.Some? ==> r.value in rows && r.value.id == id && r.value.userId == userId
    ensures r.None? ==> forall c :: c in rows ==> !(c.id == id && c.userId == userId)
  {
    if rows == [] then None
    else if rows[0].id == id && rows[0].userId == userId then Some(rows[0])
    else FindCredential(rows[1..], id, userId)
  }

  /** The "get-credential" step: the lookup scoped by credential id and user id. */
  function CredentialStep(credentials: Result<seq<Credential>>, id: string, userId: string): Result<Option<Credential>> {
    match credentials
    case Err(e) => Err(e)
    case Ok(rows) => Ok(FindCredential(rows, id, userId))
  }

  /** Every field the executor checks is present and non-empty. */
  predicate Configured(data: GeminiData) {
    Truthy(data.variableName) && Truthy(data.credentialId) && Truthy(data.userPrompt)
  }

  /** What one invocation publishes and returns or throws. */
  function Outcome(data: GeminiData, nodeId: string, userId: string, context: Context, svc: Services): (o: NodeOutcome)
    ensures Lifecycle(o, Channel, nodeId)
    ensures o.result.Ok? ==> Configured(data) && o.result.value.Keys == context.Keys + {data.variableName.value}
  {
    if !Truthy(data.variableName) then Rejected(nodeId, "Gemini node: Variable name is missing")
    else if !Truthy(data.credentialId) then Rejected(nodeId, "Gemini node: Credential is required")
    else if !Truthy(data.userPrompt) then Rejected(nodeId, "Gemini node: User prompt is missing")
    else
      match SystemPrompt(data.systemPrompt, context, svc.render)
      case Err(e) => Escaped(nodeId, e)
      case Ok(system) =>
        match svc.render(data.userPrompt.value, context)
        case Err(e) => Escaped(nodeId, e)
        case Ok(prompt) =>
          match CredentialStep(svc.credentials, data.credentialId.value, userId)
          case Err(e) => Escaped(nodeId, e)
          case Ok(None) => Rejected(nodeId, "Gemini node: Credential not found")
          case Ok(Some(credential)) =>
            match svc.decrypt(credential.value)
            case Err(e) => Escaped(nodeId, e)
            case Ok(apiKey) =>
              var guarded := GuardedGeneration(Channel, nodeId, context, data.variableName.value,
                                               svc.generate(apiKey, Model, system, prompt));
              NodeOutcome([Event(nodeId, Loading)] + guarded.events, guarded.result)
  }

  /** The executor as the source runs it: publishing step by step, with early throws. */
  method Execute(data: GeminiData, nodeId: string, userId: string, context: Context, svc: Services,
                 publisher: Publisher) returns (r: Result<Context>)
    modifies publisher
    ensures publisher.log == old(publisher.log) + Outcome(data, nodeId, userId, context, svc).events
    ensures r == Outcome(data, nodeId, userId, context, svc).result
  {
    publisher.Publish(Event(nodeId, Loading));
    if !Truthy(data.variableName) {
      publisher.Publish(Event(nodeId, Error));
      return Err(NonRetriable("Gemini node: Variable name is missing"));
    }
    if !Truthy(data.credentialId) {
      publisher.Publish(Event(nodeId, Error));
      return Err(NonRetriable("Gemini node: Credential is required"));
    }
    if !Truthy(data.userPrompt) {
      publisher.Publish(Event(nodeId, Error));
      return Err(NonRetriable("Gemini node: User prompt is missing"));
    }
    var system := SystemPrompt(data.systemPrompt, context, svc.render);
    if system.Err? {
      return Err(system.error);
    }
    var prompt := svc.render(data.userPrompt.value, context);
    if prompt.Err? {
      return Err(prompt.error);
    }
    var credential := CredentialStep(svc.credentials, data.credentialId.value, userId);
    if credential.Err? {
      return Err(credential.error);
    }
    if credential.value.None? {
      publisher.Publish(Event(nodeId, Error));
      return Err(NonRetriable("Gemini node: Credential not found"));
    }
    var apiKey := svc.decrypt(credential.value.value.value);
    if apiKey.Err? {
      return Err(apiKey.error);
    }
    // try
    var response := svc.generate(apiKey.value, Model, system.value, prompt.value);
    var text: Result<string> := if response.Ok? then ExtractText(response.value) else Err(response.error);
    if text.Err? {
      // catch: publish `error` and rethrow
      publisher.Publish(Event(nodeId, Error));
      return Err(text.error);
    }
    publisher.Publish(Event(nodeId, Success));
    r := Ok(WithOutput(context, data.variableName.value, text.value));
  }

  // ----- properties of the outcome -----

  /** Fields are checked in the order variableName, credentialId, userPrompt. */
  lemma ValidationOrder(data: GeminiData, nodeId: string, userId: string, context: Context, svc: Services)
    ensures !Truthy(data.variableName) ==>
              Outcome(data, nodeId, userId, context, svc) == Rejected(nodeId, "Gemini node: Variable name is missing")
    ensures Truthy(data.variableName) && !Truthy(data.credentialId) ==>
              Outcome(data, nodeId, userId, context, svc) == Rejected(nodeId, "Gemini node: Credential is required")
    ensures Truthy(data.variableName) && Truthy(data.credentialId) && !Truthy(data.userPrompt) ==>
              Outcome(data, nodeId, userId, context, svc) == Rejected(nodeId, "Gemini node: User prompt is missing")
  {
  }

  /**
   * A configuration error involves no collaborator: no rendering, no credential lookup,
   * no model call. The outcome is the same whatever the services do.
   */
  lemma RejectionIgnoresServices(data: GeminiData, nodeId: string, userId: string, context: Context,
                                 svc1: Services, svc2: Services)
    requires !Configured(data)
    ensures Outcome(data, nodeId, userId, context, svc1) == Outcome(data, nodeId, userId, context, svc2)
    ensures Outcome(data, nodeId, userId, context, svc1).events
            == [Event(nodeId, Loading), Event(nodeId, Error)]
  {
  }

  /**
   * A credential that no row holds for this (credentialId, userId) pair fails with
   * "Credential not found" after `loading` and `error`; neither decryption nor the
   * model is consulted.
   */
  lemma CredentialNotFound(data: GeminiData, nodeId: string, userId: string, context: Context,
                           svc: Services, rows: seq<Credential>)
    requires Configured(data)
    requires SystemPrompt(data.systemPrompt, context, svc.render).Ok?
    requires svc.render(data.userPrompt.value, context).Ok?
    requires svc.credentials == Ok(rows)
    requires forall c :: c in rows ==> !(c.id == data.credentialId.value && c.userId == userId)
    ensures Outcome(data, nodeId, userId, context, svc) == Rejected(nodeId, "Gemini node: Credential not found")
  {
  }

  /** A credential row owned by another user is never used. */
  lemma CredentialScopedByUser(rows: seq<Credential>, id: string, userId: string, c: Credential)
    requires c in rows && c.id == id && c.userId != userId
    requires FindCredential(rows, id, userId).Some?
    ensures FindCredential(rows, id, userId).value != c
  {
  }

  /**
   * Template rendering, the credential-lookup step and decryption run outside the
   * `try`: their exception propagates unchanged after `loading` alone.
   */
  lemma FailureBeforeTryPublishesNoError(data: GeminiData, nodeId: string, userId: string, context: Context,
                                         svc: Services)
    requires Configured(data)
    ensures var system := SystemPrompt(data.systemPrompt, context, svc.render);
            var prompt := svc.render(data.userPrompt.value, context);
            var credential := CredentialStep(svc.credentials, data.credentialId.value, userId);
            var o := Outcome(data, nodeId, userId, context, svc);
            && (system.Err? ==> o == Escaped(nodeId, system.error))
            && (system.Ok? && prompt.Err? ==> o == Escaped(nodeId, prompt.error))
            && (system.Ok? && prompt.Ok? && credential.Err? ==> o == Escaped(nodeId, credential.error))
            && (system.Ok? && prompt.Ok? && credential.Ok? && credential.value.Some?
                && svc.decrypt(credential.value.value.value).Err? ==>
                  o == Escaped(nodeId, svc.decrypt(credential.value.value.value).error))
  {
  }

  /**
   * Once the model is reached: the events are `[loading, success]` and the context
   * gains exactly the binding `variableName -> { text }`, or, when the call or the
   * extraction throws, `[loading, error]` and the same error is rethrown.
   */
  lemma ModelCallOutcome(data: GeminiData, nodeId: string, userId: string, context: Context, svc: Services,
                         credential: Credential, apiKey: string)
    requires Configured(data)
    requires SystemPrompt(data.systemPrompt, context, svc.render).Ok?
    requires svc.render(data.userPrompt.value, context).Ok?
    requires CredentialStep(svc.credentials, data.credentialId.value, userId) == Ok(Some(credential))
    requires svc.decrypt(credential.value) == Ok(apiKey)
    ensures var response := svc.generate(apiKey, Model, SystemPrompt(data.systemPrompt, context, svc.render).value,
                                          svc.render(data.userPrompt.value, context).value);
            var o := Outcome(data, nodeId, userId, context, svc);
            && (response.Err? ==> o == NodeOutcome([Event(nodeId, Loading), Event(nodeId, Error)], Err(response.error)))
            && (response.Ok? && ExtractText(response.value).Ok? ==>
                  o == NodeOutcome([Event(nodeId, Loading), Event(nodeId, Success)],
                                   Ok(WithOutput(context, data.variableName.value, ExtractText(response.value).value))))
            && (response.Ok? && ExtractText(response.value).Err? ==>
                  o == NodeOutcome([Event(nodeId, Loading), Event(nodeId, Error)], Err(ExtractText(response.value).error)))
  {
  }

  /** A successful run called the model with the rendered prompts and its key, and bound its text. */
  lemma SuccessOnlyThroughModel(data: GeminiData, nodeId: string, userId: string, context: Context, svc: Services)
    requires Outcome(data, nodeId, userId, context, svc).result.Ok?
    ensures Configured(data)
    ensures var system := SystemPrompt(data.systemPrompt, context, svc.render);
            var prompt := svc.render(data.userPrompt.value, context);
            var credential := CredentialStep(svc.credentials, data.credentialId.value, userId);
            && system.Ok? && prompt.Ok? && credential.Ok? && credential.value.Some?
            && credential.value.value.userId == userId
            && svc.decrypt(credential.value.value.value).Ok?
            && var response := svc.generate(svc.decrypt(credential.value.value.value).value, Model, system.value, prompt.value);
               response.Ok? && ExtractText(response.value).Ok?
               && Outcome(data, nodeId, userId, context, svc).result
                  == Ok(WithOutput(context, data.variableName.value, ExtractText(response.value).value))
  {
  }
}
