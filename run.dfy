/**
 * The workflow run coordinator: checks the workflow id, prepares the sorted node list,
 * resolves the owner, seeds the context from the trigger and runs one executor per
 * node in order, each on the context the previous one returned.
 */
module WorkflowRun {
  import opened Results
  import opened ExecutionContext
  import opened Schema

  /** The trigger event's payload. */
  datatype TriggerEvent = TriggerEvent(workflowId: Option<string>, initialData: Option<Context>)

  /** The run's return value `{ workflowId, result }`. */
  datatype RunOutput = RunOutput(workflowId: string, result: Context)

  /**
   * The executor chosen for a node's type, applied to (node, userId, context): what it
   * publishes and what it returns or throws. The registry and the executors behind it
   * are abstract here.
   */
  type Executor = (NodeRow, string, Context) -> NodeOutcome

  /** One executor call: the node, the user id and the context it received. */
  datatype Invocation = Invocation(node: NodeRow, userId: string, input: Context)

  function OutcomeOf(execute: Executor, call: Invocation): NodeOutcome {
    execute(call.node, call.userId, call.input)
  }

  /**
   * The state of the loop after some nodes: the current context, the events published
   * so far, the calls made so far, and the error that stopped the loop if any.
   */
  datatype Progress = Progress(context: Context, events: seq<StatusEvent>, calls: seq<Invocation>, failure: Option<Error>)

  /** `initialData || {}`. */
  function Seed(initialData: Option<Context>): (c: Context)
    ensures initialData.Some? ==> c == initialData.value
    ensures initialData.None? ==> c == map[]
  {
    initialData.GetOr(map[])
  }

  /** One loop iteration: nothing after a throw; otherwise call the executor and thread its result. */
  function Advance(p: Progress, node: NodeRow, userId: string, execute: Executor): Progress {
    if p.failure.Some? then p
    else
      var o := execute(node, userId, p.context);
      var calls := p.calls + [Invocation(node, userId, p.context)];
      match o.result
      case Ok(next) => Progress(next, p.events + o.events, calls, None)
      case Err(e) => Progress(p.context, p.events + o.events, calls, Some(e))
  }

  /** The loop over a node sequence, as a left fold. */
  function Run(nodes: seq<NodeRow>, userId: string, init: Context, execute: Executor): Progress
    decreases |nodes|
  {
    if |nodes| == 0 then Progress(init, [], [], None)
    else Advance(Run(nodes[..|nodes| - 1], userId, init, execute), nodes[|nodes| - 1], userId, execute)
  }

  /** The events the given calls published, in call order. */
  function EventsOf(calls: seq<Invocation>, execute: Executor): seq<StatusEvent>
    decreases |calls|
  {
    if |calls| == 0 then []
    else EventsOf(calls[..|calls| - 1], execute) + OutcomeOf(execute, calls[|calls| - 1]).events
  }

  /**
   * The calls follow the node sequence and thread the context: call k is on node k with
   * the shared user id; the first receives the seed, every later one what its
   * predecessor returned.
   */
  ghost predicate Threaded(calls: seq<Invocation>, nodes: seq<NodeRow>, userId: string, init: Context, execute: Executor) {
    && |calls| <= |nodes|
    && (forall k :: 0 <= k < |calls| ==> calls[k].node == nodes[k] && calls[k].userId == userId)
    && (|calls| > 0 ==> calls[0].input == init)
    && (forall k :: 0 < k < |calls| ==> OutcomeOf(execute, calls[k - 1]).result == Ok(calls[k].input))
  }

  /** Everything the loop produced is explained by its calls. */
  lemma RunIsThreaded(nodes: seq<NodeRow>, userId: string, init: Context, execute: Executor)
    ensures var p := Run(nodes, userId, init, execute);
            && Threaded(p.calls, nodes, userId, init, execute)
            && p.events == EventsOf(p.calls, execute)
            && (p.failure.None? ==> |p.calls| == |nodes|)
            && (p.failure.None? && |p.calls| == 0 ==> p.context == init)
            && (p.failure.None? && |p.calls| > 0 ==> OutcomeOf(execute, p.calls[|p.calls| - 1]).result == Ok(p.context))
            && (p.failure.Some? ==>
                  |p.calls| > 0 && OutcomeOf(execute, p.calls[|p.calls| - 1]).result == Err(p.failure.value))
  {
    RunFollowsNodes(nodes, userId, init, execute);
    RunThreadsContext(nodes, userId, init, execute);
    RunEvents(nodes, userId, init, execute);
  }

  /** Call k is on node k with the shared user id, and without a throw every node was called. */
  lemma {:induction false} RunFollowsNodes(nodes: seq<NodeRow>, userId: string, init: Context, execute: Executor)
    ensures var p := Run(nodes, userId, init, execute);
            && |p.calls| <= |nodes|
            && (forall k :: 0 <= k < |p.calls| ==> p.calls[k].node == nodes[k] && p.calls[k].userId == userId)
            && (p.failure.None? ==> |p.calls| == |nodes|)
    decreases |nodes|
  {
    if |nodes| > 0 {
      var prefix := nodes[..|nodes| - 1];
      RunFollowsNodes(prefix, userId, init, execute);
      var q := Run(prefix, userId, init, execute);
      var p := Run(nodes, userId, init, execute);
      assert p == Advance(q, nodes[|nodes| - 1], userId, execute);
      forall k | 0 <= k < |q.calls| ensures nodes[k] == prefix[k] {
      }
      if q.failure.None? {
        assert p.calls == q.calls + [Invocation(nodes[|nodes| - 1], userId, q.context)];
      }
    }
  }

  /**
   * The first call gets the seed, each later one what its predecessor returned; the
   * context is the last return, and a failure is the last call's error.
   */
  lemma {:induction false} RunThreadsContext(nodes: seq<NodeRow>, userId: string, init: Context, execute: Executor)
    ensures var p := Run(nodes, userId, init, execute);
            && (|p.calls| > 0 ==> p.calls[0].input == init)
            && (forall k :: 0 < k < |p.calls| ==> OutcomeOf(execute, p.calls[k - 1]).result == Ok(p.calls[k].input))
            && (p.failure.None? && |p.calls| == 0 ==> p.context == init)
            && (p.failure.None? && |p.calls| > 0 ==> OutcomeOf(execute, p.calls[|p.calls| - 1]).result == Ok(p.context))
            && (p.failure.Some? ==>
                  |p.calls| > 0 && OutcomeOf(execute, p.calls[|p.calls| - 1]).result == Err(p.failure.value))
    decreases |nodes|
  {
    if |nodes| > 0 {
      var prefix := nodes[..|nodes| - 1];
      RunThreadsContext(prefix, userId, init, execute);
      var q := Run(prefix, userId, init, execute);
      var p := Run(nodes, userId, init, execute);
      assert p == Advance(q, nodes[|nodes| - 1], userId, execute);
      if q.failure.None? {
        var call := Invocation(nodes[|nodes| - 1], userId, q.context);
        assert p.calls == q.calls + [call];
      }
    }
  }

  /** The run's events are its calls' events, in call order. */
  lemma {:induction false} RunEvents(nodes: seq<NodeRow>, userId: string, init: Context, execute: Executor)
    ensures var p := Run(nodes, userId, init, execute);
            p.events == EventsOf(p.calls, execute)
    decreases |nodes|
  {
    if |nodes| > 0 {
      var prefix := nodes[..|nodes| - 1];
      RunEvents(prefix, userId, init, execute);
      var q := Run(prefix, userId, init, execute);
      var p := Run(nodes, userId, init, execute);
      assert p == Advance(q, nodes[|nodes| - 1], userId, execute);
      if q.failure.None? {
        var call := Invocation(nodes[|nodes| - 1], userId, q.context);
        assert p.calls == q.calls + [call];
        assert p.calls[..|p.calls| - 1] == q.calls;
        assert p.events == EventsOf(q.calls, execute) + OutcomeOf(execute, call).events;
      }
    }
  }

  /** Once an executor throws, no later node runs: longer prefixes give the same state. */
  lemma {:induction false} StopsAtFailure(nodes: seq<NodeRow>, i: nat, j: nat, userId: string, init: Context, execute: Executor)
    requires i <= j <= |nodes|
    requires Run(nodes[..i], userId, init, execute).failure.Some?
    ensures Run(nodes[..j], userId, init, execute) == Run(nodes[..i], userId, init, execute)
    decreases j - i
  {
    if i < j {
      StopsAtFailure(nodes, i, j - 1, userId, init, execute);
      assert nodes[..j][..j - 1] == nodes[..j - 1];
    }
  }

  /** On success every node ran exactly once, in order, and the result is the last executor's return. */
  lemma SuccessRunsEveryNode(nodes: seq<NodeRow>, userId: string, init: Context, execute: Executor)
    requires Run(nodes, userId, init, execute).failure.None?
    ensures var p := Run(nodes, userId, init, execute);
            && |p.calls| == |nodes|
            && (forall k :: 0 <= k < |nodes| ==> p.calls[k].node == nodes[k] && p.calls[k].userId == userId)
            && (forall k :: 0 <= k < |nodes| ==> OutcomeOf(execute, p.calls[k]).result.Ok?)
  {
    RunIsThreaded(nodes, userId, init, execute);
    var p := Run(nodes, userId, init, execute);
    forall k | 0 <= k < |nodes| ensures OutcomeOf(execute, p.calls[k]).result.Ok? {
      if k + 1 < |nodes| {
        assert OutcomeOf(execute, p.calls[k]).result == Ok(p.calls[k + 1].input);
      }
    }
  }

  /**
   * On a throw at call k, the nodes before k all returned, node k threw the error the
   * run reports, and no node after k was called.
   */
  lemma FailureStopsTheRun(nodes: seq<NodeRow>, userId: string, init: Context, execute: Executor)
    requires Run(nodes, userId, init, execute).failure.Some?
    ensures var p := Run(nodes, userId, init, execute);
            var k := |p.calls| - 1;
            && 0 <= k < |nodes|
            && p.calls[k].node == nodes[k]
            && OutcomeOf(execute, p.calls[k]).result == Err(p.failure.value)
            && (forall m :: 0 <= m < k ==> OutcomeOf(execute, p.calls[m]).result.Ok?)
  {
    RunIsThreaded(nodes, userId, init, execute);
    var p := Run(nodes, userId, init, execute);
    forall m | 0 <= m < |p.calls| - 1 ensures OutcomeOf(execute, p.calls[m]).result.Ok? {
      assert OutcomeOf(execute, p.calls[m]).result == Ok(p.calls[m + 1].input);
    }
  }

  /**
   * The handler. `prepare` is the "prepare-workflow" step (load and sort; it throws for
   * a missing workflow or a cyclic graph), `findUserId` the "find-user-id" step; both
   * are abstract. `calls` records the executor calls for the reference fold.
   */
  method ExecuteWorkflow(event: TriggerEvent,
                         prepare: string -> Result<seq<NodeRow>>,
                         findUserId: string -> Result<string>,
                         execute: Executor,
                         publisher: Publisher)
    returns (r: Result<RunOutput>, ghost calls: seq<Invocation>)
    modifies publisher
    ensures !Truthy(event.workflowId) ==>
              r == Err(NonRetriable("Workflow ID is missing")) && calls == [] && publisher.log == old(publisher.log)
    ensures Truthy(event.workflowId) && prepare(event.workflowId.value).Err? ==>
              r == Err(prepare(event.workflowId.value).error) && calls == [] && publisher.log == old(publisher.log)
    ensures Truthy(event.workflowId) && prepare(event.workflowId.value).Ok? && findUserId(event.workflowId.value).Err? ==>
              r == Err(findUserId(event.workflowId.value).error) && calls == [] && publisher.log == old(publisher.log)
    ensures Truthy(event.workflowId) && prepare(event.workflowId.value).Ok? && findUserId(event.workflowId.value).Ok? ==>
              var p := Run(prepare(event.workflowId.value).value, findUserId(event.workflowId.value).value,
                           Seed(event.initialData), execute);
              && calls == p.calls
              && publisher.log == old(publisher.log) + p.events
              && r == (if p.failure.Some? then Err(p.failure.value) else Ok(RunOutput(event.workflowId.value, p.context)))
  {
    if !Truthy(event.workflowId) {
      return Err(NonRetriable("Workflow ID is missing")), [];
    }
    var workflowId := event.workflowId.value;
    var sortedNodes := prepare(workflowId);
    if sortedNodes.Err? {
      return Err(sortedNodes.error), [];
    }
    var userId := findUserId(workflowId);
    if userId.Err? {
      return Err(userId.error), [];
    }
    var nodes := sortedNodes.value;
    var context := Seed(event.initialData);
    calls := [];
    ghost var events: seq<StatusEvent> := [];
    var i := 0;
    while i < |nodes|
      invariant 0 <= i <= |nodes|
      invariant publisher.log == old(publisher.log) + events
      invariant Run(nodes[..i], userId.value, Seed(event.initialData), execute) == Progress(context, events, calls, None)
    {
      assert nodes[..i + 1][..i] == nodes[..i];
      var outcome := execute(nodes[i], userId.value, context);
      publisher.PublishAll(outcome.events);
      events := events + outcome.events;
      calls := calls + [Invocation(nodes[i], userId.value, context)];
      if outcome.result.Err? {
        StopsAtFailure(nodes, i + 1, |nodes|, userId.value, Seed(event.initialData), execute);
        assert nodes[..|nodes|] == nodes;
        return Err(outcome.result.error), calls;
      }
      context := outcome.result.value;
      i := i + 1;
    }
    assert nodes[..i] == nodes;
    r := Ok(RunOutput(workflowId, context));
  }
}
