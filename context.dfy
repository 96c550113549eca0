/**
 * The execution context threaded through a run, the per-node status events an
 * executor publishes, and the parts shared by the AI-model executors.
 */
module ExecutionContext {
  import opened Results

  /** A JSON-like value stored in the context. Numbers are integers here. */
  datatype Json =
    | JNull
    | JBool(b: bool)
    | JNumber(n: int)
    | JString(s: string)
    | JArray(items: seq<Json>)
    | JObject(fields: map<string, Json>)

  /** Variable name -> value, as produced by upstream nodes. */
  type Context = map<string, Json>

  /** The value an AI node binds under its variable name: `{ text }`. */
  function TextOutput(text: string): Json {
    JObject(map["text" := JString(text)])
  }

  /**
   * `{ ...context, [variableName]: { text } }`: the context with one binding added or
   * replaced and every other binding kept.
   */
  function WithOutput(context: Context, variableName: string, text: string): (r: Context)
    ensures r.Keys == context.Keys + {variableName}
    ensures r[variableName] == TextOutput(text)
    ensures forall k :: k in context && k != variableName ==> r[k] == context[k]
  {
    context[variableName := TextOutput(text)]
  }

  /** Follows a dotted reference such as `name.text` through nested objects. */
  function Lookup(value: Json, path: seq<string>): Option<Json> {
    if path == [] then Some(value)
    else if value.JObject? && path[0] in value.fields then Lookup(value.fields[path[0]], path[1..])
    else None
  }

  /** The reference `{{variableName.text}}` resolves to the text a node produced. */
  lemma OutputReferenceResolves(context: Context, variableName: string, text: string)
    ensures Lookup(JObject(WithOutput(context, variableName, text)), [variableName, "text"])
         == Some(JString(text))
  {
    var c := WithOutput(context, variableName, text);
    assert Lookup(JObject(c), [variableName, "text"]) == Lookup(c[variableName], ["text"]);
    assert Lookup(TextOutput(text), ["text"]) == Lookup(JString(text), []);
  }

  // ----- status events -----

  datatype Status = Loading | Success | Error

  /** A message on a node channel's "status" topic. */
  datatype StatusEvent = StatusEvent(channel: string, nodeId: string, status: Status)

  /** The realtime publisher: every call appends one event to the log observers see. */
  class Publisher {
    var log: seq<StatusEvent>

    constructor ()
      ensures log == []
    {
      log := [];
    }

    method Publish(event: StatusEvent)
      modifies this
      ensures log == old(log) + [event]
    {
      log := log + [event];
    }

    method PublishAll(events: seq<StatusEvent>)
      modifies this
      ensures log == old(log) + events
    {
      log := log + events;
    }
  }

  /** What one executor invocation did: the events it published and what it returned or threw. */
  datatype NodeOutcome = NodeOutcome(events: seq<StatusEvent>, result: Result<Context>)

  /**
   * The status lifecycle of one node: `loading` first, then `success` exactly when it
   * returns, and `error` or (for failures outside the guarded model call) nothing more
   * when it throws.
   */
  predicate Lifecycle(o: NodeOutcome, channel: string, nodeId: string) {
    && |o.events| >= 1
    && o.events[0] == StatusEvent(channel, nodeId, Loading)
    && (o.result.Ok? ==>
          o.events == [StatusEvent(channel, nodeId, Loading), StatusEvent(channel, nodeId, Success)])
    && (o.result.Err? ==>
          o.events == [StatusEvent(channel, nodeId, Loading), StatusEvent(channel, nodeId, Error)]
          || o.events == [StatusEvent(channel, nodeId, Loading)])
  }

  // ----- model responses -----

  datatype ContentPart = TextPart(text: string) | OtherPart(kind: string)

  /** One step of a text-generation response. */
  datatype GenerationStep = GenerationStep(content: seq<ContentPart>)

  const DefaultSystemPrompt := "you are a helpful assistant."

  /**
   * `steps[0].content[0].type === "text" ? steps[0].content[0].text : ""`: reading a
   * missing step or content item throws a TypeError.
   */
  function ExtractText(steps: seq<GenerationStep>): (r: Result<string>)
    ensures r.Err? <==> |steps| == 0 || |steps[0].content| == 0
    ensures r.Ok? && steps[0].content[0].TextPart? ==> r.value == steps[0].content[0].text
    ensures r.Ok? && !steps[0].content[0].TextPart? ==> r.value == ""
  {
    if |steps| == 0 || |steps[0].content| == 0 then
      Err(Thrown("TypeError: cannot read properties of undefined"))
    else
      match steps[0].content[0]
      case TextPart(t) => Ok(t)
      case OtherPart(_) => Ok("")
  }

  /**
   * `data.systemPrompt ? render(data.systemPrompt) : default`: an absent or empty system
   * prompt is replaced by the default without rendering.
   */
  function SystemPrompt(systemPrompt: Option<string>, context: Context,
                        render: (string, Context) -> Result<string>): (r: Result<string>)
    ensures !Truthy(systemPrompt) ==> r == Ok(DefaultSystemPrompt)
    ensures Truthy(systemPrompt) ==> r == render(systemPrompt.value, context)
  {
    if Truthy(systemPrompt) then render(systemPrompt.value, context) else Ok(DefaultSystemPrompt)
  }

  /**
   * The guarded part of an AI node (its `try` block): the wrapped model call, the text
   * extraction and the `success` event; any exception inside publishes `error` and is
   * rethrown unchanged. The result lists only the events published inside the block.
   */
  function GuardedGeneration(channel: string, nodeId: string, context: Context, variableName: string,
                             response: Result<seq<GenerationStep>>): (o: NodeOutcome)
    ensures o.result.Ok? <==> response.Ok? && ExtractText(response.value).Ok?
    ensures o.result.Ok? ==>
              o.events == [StatusEvent(channel, nodeId, Success)]
              && o.result.value == WithOutput(context, variableName, ExtractText(response.value).value)
    ensures o.result.Err? ==> o.events == [StatusEvent(channel, nodeId, Error)]
    ensures response.Err? ==> o.result == Err(response.error)
    ensures response.Ok? && ExtractText(response.value).Err? ==> o.result == Err(ExtractText(response.value).error)
  {
    match response
    case Err(e) => NodeOutcome([StatusEvent(channel, nodeId, Error)], Err(e))
    case Ok(steps) =>
      match ExtractText(steps)
      case Err(e) => NodeOutcome([StatusEvent(channel, nodeId, Error)], Err(e))
      case Ok(text) => NodeOutcome([StatusEvent(channel, nodeId, Success)], Ok(WithOutput(context, variableName, text)))
  }
}
