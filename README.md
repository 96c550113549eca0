# FlowForge workflow execution core in Dafny

FlowForge is a visual workflow builder. A workflow is a graph of nodes (triggers,
HTTP calls, AI models, chat messages) joined by connections. Running a workflow
means walking its nodes in topological order. Each node's executor receives the
execution context, publishes `loading` / `success` / `error` status events, and
returns the context extended with its output under the node's variable name.

This project models that path and the small rules around it:

- **WorkflowRun** (`run.dfy`): the run coordinator.
  - It rejects a missing workflow id, loads the sorted node list and resolves the owner once.
  - It seeds the context from the trigger's initial data, then calls one executor per node, threading the context.
  - It is an imperative method, proved against a left fold (`Run`) over the node prefix.
- **GeminiExecutor** and **AnthropicExecutor** (`gemini.dfy`, `anthropic.dfy`): the two AI node executors.
  - Each is a pure function `Outcome` (the events published and the value returned or thrown).
  - Each also has a method `Execute`, which appends to a `Publisher` log step by step and is proved equal to `Outcome`.
- **ExecutionContext** (`context.dfy`): the context as a map of JSON values, status events, the publisher, the shared output extraction, and the `try`/`catch` around the model call.
- **WorkflowsRouter** (`workflows.dfy`):
  - node-type normalisation;
  - the editor-to-row and row-to-editor mappings;
  - a `Database` class whose `Create` and `Update` methods change the workflow, node and connection tables, with `GetOne` and `GetMany` as reading functions.
- **ExecutionsRouter** (`executions.dfy`): the owner-filtered execution queries.
- **Listing** (`listing.dfy`): row selection, descending order and page arithmetic, shared by both routers.
- **Access** (`access.dfy`): the protected procedure and the premium procedure, which allows 4 workflows and then requires a subscription.
- **OpenAiDialog** (`dialog.dfy`): the OpenAI node form's schema, defaults, submission and reference preview.
- **ExecutionsView** (`executions_view.dfy`): the status title, the icon and the duration of an execution row.
- **Results**, **Text** and **Schema**: shared values (Option, Result, the thrown errors, ASCII lower-casing, substring search, database rows).

External effects are parameters:

- template rendering: `render`;
- the credential table: `credentials`;
- `decrypt`;
- the model call: `generate`;
- the prepare and find-user steps: `prepare`, `findUserId`;
- the executor registry: `execute`;
- the billing lookup: `lookup`;
- the clock: `now`;
- generated ids and slugs: plain inputs.

Each may succeed or fail, and the model says what happens in both cases.

## Model

| member | source | states |
|---|---|---|
| WorkflowRun.Seed | src/inngest/functions.ts:70 | the context starts as the trigger's initial data when given, otherwise as the empty map |
| WorkflowRun.ExecuteWorkflow | src/inngest/functions.ts:38-91 | a missing or empty workflow id throws "Workflow ID is missing" before any step, call or event; a failing prepare or find-user step rethrows its error with no executor call; otherwise calls, events and result are those of `Run` over the prepared nodes with the one resolved user id: the first throw is rethrown, or `{workflowId, result}` holds the final context |
| WorkflowRun.RunIsThreaded | src/inngest/functions.ts:74-84 | call k is on node k with the shared user id; the first call gets the seed and each later call gets what the previous returned; the events are the calls' events in order; without a throw every node was called and the result is the last return (the seed when there are no nodes); `Run` is the left fold that states these, one `Advance` per node |
| WorkflowRun.RunFollowsNodes | src/inngest/functions.ts:74-84 | call k is on node k with the shared user id, never more calls than nodes, and every node called when nothing threw |
| WorkflowRun.RunThreadsContext | src/inngest/functions.ts:74-84 | the first call gets the seed and each later one its predecessor's return; the context is the last return (the seed with no calls), and a failure is the last call's error |
| WorkflowRun.RunEvents | src/inngest/functions.ts:74-84 | the run's events are its calls' events, in call order |
| WorkflowRun.StopsAtFailure | src/inngest/functions.ts:74-84 | once an executor has thrown, running longer prefixes of the node list changes nothing: no later node is called |
| WorkflowRun.SuccessRunsEveryNode | src/inngest/functions.ts:74-84 | on success each node was called exactly once, in sorted order, with the shared user id, and every call returned |
| WorkflowRun.FailureStopsTheRun | src/inngest/functions.ts:74-84 | on failure the last call threw exactly the reported error, all calls before it returned, and no node after it was called |
| ExecutionContext.WithOutput | src/features/executions/components/gemini/executor.ts:141-146 | the new context has the old keys plus the variable name, binds it to `{ text }`, and leaves every other key unchanged |
| ExecutionContext.OutputReferenceResolves | src/features/executions/components/gemini/executor.ts:141-146 | the path `variableName.text` in the extended context resolves to the produced text |
| ExecutionContext.Publisher.Publish | src/features/executions/components/gemini/executor.ts:43-48 | publishing appends exactly one event to the log |
| ExecutionContext.Publisher.PublishAll | src/features/executions/components/gemini/executor.ts:43-48 | publishing several events appends them in order |
| ExecutionContext.ExtractText | src/features/executions/components/gemini/executor.ts:131-132 | throws exactly when there is no first step or no first content part; the text of a first text part, otherwise "" |
| ExecutionContext.SystemPrompt | src/features/executions/components/gemini/executor.ts:85 | an absent or empty system prompt becomes "you are a helpful assistant."; otherwise it is the rendered template, render failures included |
| ExecutionContext.GuardedGeneration | src/features/executions/components/gemini/executor.ts:114-157 | success exactly when the call and the extraction succeed, then `success` and the extended context; otherwise `error` and the same error rethrown, the call's own error or the extraction's error as it is |
| GeminiExecutor.FindCredential | src/features/executions/components/gemini/executor.ts:89-96 | a found credential has the requested id and the caller's user id; none found means no row matches both (`CredentialStep` passes a failed lookup's error on unchanged and otherwise applies this search) |
| GeminiExecutor.Outcome | src/features/executions/components/gemini/executor.ts:43-157 | the events start with `loading`; they are `[loading, success]` on success, otherwise `[loading, error]` or `[loading]`; a success adds exactly the variable name to the context's keys |
| GeminiExecutor.Execute | src/features/executions/components/gemini/executor.ts:43-157 | the log grows by exactly `Outcome`'s events and the return or throw is `Outcome`'s |
| GeminiExecutor.ValidationOrder | src/features/executions/components/gemini/executor.ts:50-79 | variableName, then credentialId, then userPrompt; the first missing or empty one gives `[loading, error]` and its non-retriable message |
| GeminiExecutor.RejectionIgnoresServices | src/features/executions/components/gemini/executor.ts:50-79 | a configuration error has the same outcome whatever rendering, the credential table, decryption and the model do, so none of them is consulted |
| GeminiExecutor.CredentialNotFound | src/features/executions/components/gemini/executor.ts:98-106 | when no row matches (credentialId, userId), the outcome is `[loading, error]` and "Gemini node: Credential not found" |
| GeminiExecutor.CredentialScopedByUser | src/features/executions/components/gemini/executor.ts:89-96 | a credential row of another user is never the one found |
| GeminiExecutor.FailureBeforeTryPublishesNoError | src/features/executions/components/gemini/executor.ts:85-111 | a failure of rendering, the credential step or decryption propagates unchanged after `loading` alone |
| GeminiExecutor.ModelCallOutcome | src/features/executions/components/gemini/executor.ts:114-157 | once the model is called: a success gives `[loading, success]` and the context extended with the extracted text; a throwing call or extraction gives `[loading, error]` and the same error |
| GeminiExecutor.SuccessOnlyThroughModel | src/features/executions/components/gemini/executor.ts:109-147 | a success had all fields, a credential of the same user and its decrypted key, and a model answer whose text is bound |
| AnthropicExecutor.Outcome | src/features/executions/components/anthropic/executor.ts:39-126 | the same lifecycle as the Gemini node; a success adds exactly the variable name to the context's keys |
| AnthropicExecutor.Execute | src/features/executions/components/anthropic/executor.ts:39-126 | the log grows by exactly `Outcome`'s events and the return or throw is `Outcome`'s |
| AnthropicExecutor.ValidationOrder | src/features/executions/components/anthropic/executor.ts:46-65 | variableName is checked before userPrompt, each failure giving `[loading, error]` and its message |
| AnthropicExecutor.RejectionIgnoresServices | src/features/executions/components/anthropic/executor.ts:46-65 | a configuration error has the same outcome whatever the services do: no model call |
| AnthropicExecutor.RenderFailurePublishesNoError | src/features/executions/components/anthropic/executor.ts:71-72 | a rendering failure propagates unchanged after `loading` alone |
| AnthropicExecutor.ModelCallOutcome | src/features/executions/components/anthropic/executor.ts:83-126 | the model gets the environment key and the rendered prompts; success binds the text after `[loading, success]`; a throwing call or extraction gives `[loading, error]` and the same error |
| Listing.Select | src/features/workflows/server/routers.ts:109 | exactly the rows of the given workflow |
| Listing.Drop | src/features/workflows/server/routers.ts:109 | exactly the rows of the other workflows (`deleteMany` by workflow id) |
| Listing.SelectAppend | src/features/workflows/server/routers.ts:109-131 | selecting from a concatenation concatenates the selections |
| Listing.SelectOfDrop | src/features/workflows/server/routers.ts:109-131 | after deleting a workflow's rows, it has none, and every other workflow keeps its own |
| Listing.SelectAllOwned | src/features/workflows/server/routers.ts:110-119 | rows created for one workflow belong to it and to no other |
| Listing.ReplaceRows | src/features/workflows/server/routers.ts:109-131 | after delete-then-create, the workflow's rows are exactly the created ones and every other workflow's rows are untouched |
| Listing.Insert | src/features/workflows/server/routers.ts:206-208 | inserting into a descending list keeps it descending and adds exactly that element |
| Listing.SortDesc | src/features/workflows/server/routers.ts:206-208 | the result is in descending key order and a permutation of the input |
| Listing.CeilDiv | src/features/workflows/server/routers.ts:221 | the least r with n <= r * d, the integer `Math.ceil(n / d)` |
| Listing.Window | src/features/workflows/server/routers.ts:197-198 | `skip`/`take`: at most `take` rows, each the row at `skip` plus its offset; exactly `take` when enough rows remain, exactly the remaining rows on a short last page, none past the end |
| Listing.Paginate | src/features/workflows/server/routers.ts:195-230 | refused exactly when the page is below 1 (its skip is negative); otherwise the `PageAt` the skip `(page-1)*pageSize` |
| Listing.SkipSign | src/features/workflows/server/routers.ts:197 | `(page-1)*pageSize` is negative exactly for the pages below 1 |
| Listing.PageAt | src/features/workflows/server/routers.ts:195-230 | page and pageSize echoed, the total is the row count, totalPages its ceiling division (`(t-1)*pageSize < total <= t*pageSize`), the items the window at the skip, hasNextPage iff page < totalPages, hasPreviousPage iff page > 1 |
| Listing.WindowOfSorted | src/features/executions/server/routers.ts:70-79 | a window of ordered rows is ordered and holds only input rows |
| Listing.NoRowsNoPages | src/features/executions/server/routers.ts:98 | zero pages exactly when there are no rows |
| Listing.HasNextPageIffMoreRows | src/features/executions/server/routers.ts:99 | a next page is announced exactly when rows remain past the current page |
| Listing.RowOnItsPage | src/features/executions/server/routers.ts:71-72 | row j appears on page j / pageSize + 1, at offset j mod pageSize |
| Access.Protected | src/trpc/init.ts:98-111 | no session gives UNAUTHORIZED "Unauthorized"; otherwise the session is passed on |
| Access.CountOwned | src/trpc/init.ts:119-121 | exactly the number of rows whose owner is the user (the length of their selection), at most the table size |
| Access.CountOwnedAppend | src/trpc/init.ts:119-121 | adding a row raises the user's count by one exactly when the row is theirs |
| Access.PremiumGate | src/trpc/init.ts:114-156 | under 4 workflows: admitted with no customer; otherwise admitted exactly when the lookup succeeds with a non-empty subscription list, with that customer attached; every refusal is FORBIDDEN "LIMIT_REACHED", a throwing lookup included |
| Access.Premium | src/trpc/init.ts:98-156 | the protected check, then the gate on the caller's workflow count and their billing lookup |
| Access.GraceIgnoresBilling | src/trpc/init.ts:124-126 | under the limit the answer is the same whatever billing returns or throws |
| Access.SuccessiveCreatesWithoutSubscription | src/trpc/init.ts:124-143 | without a subscription and from any owned count, attempt i succeeds exactly when the owned count plus i is under 4 |
| Access.FreeTierAdmitsFour | src/trpc/init.ts:124-126 | from zero workflows and no subscription, exactly the first four creations succeed |
| WorkflowsRouter.NodeTypeNamed | src/features/workflows/server/routers.ts:24-25 | an own-key lookup: the found type's key is the string; none means no type has that key |
| WorkflowsRouter.ResolveNodeTypeAsWritten | src/features/workflows/server/routers.ts:22-28 | as written, the result is an inherited prototype member exactly for the names every object inherits |
| WorkflowsRouter.AsWrittenResolvesInheritedName | src/features/workflows/server/routers.ts:24 | "toString" passes the `in` check and does not resolve to a node type |
| WorkflowsRouter.ResolveNodeType | src/features/workflows/server/routers.ts:22-28 | absent or empty gives INITIAL; a node type's key gives that type; anything else gives INITIAL |
| WorkflowsRouter.ResolveAgreesOnMembers | src/features/workflows/server/routers.ts:22-28 | the corrected resolver agrees with the written one wherever that returns a node type |
| WorkflowsRouter.ResolveNodeTypeName | src/features/workflows/server/routers.ts:24-25 | every node type's own key resolves to that type |
| WorkflowsRouter.ToNodeRow | src/features/workflows/server/routers.ts:111-118 | id and position kept, the workflow id set, name `type ?? "unknown"`, type resolved, data `?? {}` |
| WorkflowsRouter.ToConnectionRow | src/features/workflows/server/routers.ts:124-130 | endpoints kept; each port is the handle when non-empty, otherwise "main" |
| WorkflowsRouter.EdgeRoundTrip | src/features/workflows/server/routers.ts:124-170 | save then load keeps source and target and non-empty handles; missing or empty handles come back as "main" |
| WorkflowsRouter.EdgeSaveIsStable | src/features/workflows/server/routers.ts:124-170 | saving a loaded edge again stores the same connection |
| WorkflowsRouter.NodeRoundTrip | src/features/workflows/server/routers.ts:111-162 | save then load keeps id, position and data (absent data as {}) and normalises the type |
| WorkflowsRouter.NodeRows | src/features/workflows/server/routers.ts:110-119 | one row per input node, in order |
| WorkflowsRouter.ConnectionRows | src/features/workflows/server/routers.ts:123-131 | one connection per input edge, in order |
| WorkflowsRouter.NodeViews | src/features/workflows/server/routers.ts:157-162 | one editor node per row, in order, each the row's `ToNodeView` (id, type, position, data `?? {}`) |
| WorkflowsRouter.EdgeViews | src/features/workflows/server/routers.ts:164-170 | one editor edge per connection, in order, each the connection's `ToEdgeView` (endpoints and ports) |
| WorkflowsRouter.FindOwned | src/features/workflows/server/routers.ts:103-105 | the position of a row with this id and owner; none means no row has both |
| WorkflowsRouter.Matching | src/features/workflows/server/routers.ts:199-205 | exactly the user's workflows whose name contains the search text |
| WorkflowsRouter.Listed | src/features/workflows/server/routers.ts:196-209 | the same rows, newest update first |
| WorkflowsRouter.EmptySearchListsAll | src/features/workflows/server/routers.ts:189-205 | the default empty search lists every workflow of the user |
| WorkflowsRouter.ListedPageMatches | src/features/workflows/server/routers.ts:195-209 | a page holds only the user's matching workflows, newest update first |
| WorkflowsRouter.Database.GetOne | src/features/workflows/server/routers.ts:149-178 | no session is UNAUTHORIZED; a workflow owned by the caller is found and one not owned is not; a found one carries its id and stored name, its nodes are the views of exactly its node rows and its edges the views of exactly its connection rows, in order |
| WorkflowsRouter.Database.GetMany | src/features/workflows/server/routers.ts:180-231 | no session is UNAUTHORIZED; otherwise the page of the listed rows |
| WorkflowsRouter.Database.Create | src/features/workflows/server/routers.ts:50-63 | a refused gate changes nothing and reports its error; an admitted one adds one workflow of the caller whose rows are exactly one INITIAL node named INITIAL at (0, 0) and no connections, raises the caller's count by one, and keeps every node and connection pointing at a stored workflow |
| WorkflowsRouter.Database.Update | src/features/workflows/server/routers.ts:77-138 | a non-owner or no session fails with no change; the owner's update succeeds; the workflows table changes only in that row's `updatedAt`, which is the clock, and the result is that row; otherwise the workflow's node and connection rows become exactly the input's rows, other workflows' rows are untouched, and `getOne` then returns the input as loaded |
| ExecutionsRouter.WorkflowById | src/features/executions/server/routers.ts:37-38 | the workflow row an execution's relation points to |
| ExecutionsRouter.OwnedItems | src/features/executions/server/routers.ts:73-76 | exactly the executions whose workflow is the caller's, each with its workflow's id and name |
| ExecutionsRouter.FindOwnedExecution | src/features/executions/server/routers.ts:34-50 | a found execution has the id and the caller's workflow; not found means none has both |
| ExecutionsRouter.GetOne | src/features/executions/server/routers.ts:31-53 | no session is UNAUTHORIZED; otherwise the owned execution with that id, returned with its workflow's id and name, or not found exactly when no execution has that id and the caller's workflow |
| ExecutionsRouter.GetMany | src/features/executions/server/routers.ts:54-111 | no session is UNAUTHORIZED; otherwise the page of the caller's executions by descending start |
| ExecutionsRouter.ListedPageIsOwnedAndOrdered | src/features/executions/server/routers.ts:69-100 | the page holds only the caller's executions, in descending start order, and its total is their count |
| OpenAiDialog.AllIdentifierParts | src/features/executions/components/openai/dialog.tsx:55 | true exactly when every character is a letter, digit, `_` or `$` |
| OpenAiDialog.IsIdentifier | src/features/executions/components/openai/dialog.tsx:55 | non-empty, the first character a letter, `_` or `$`, the rest letters, digits, `_` or `$` |
| OpenAiDialog.Validate | src/features/executions/components/openai/dialog.tsx:52-61 | valid exactly when the name is an identifier and the user prompt non-empty, the system prompt unchecked; each failing check is reported, an empty name with both its messages, name issues before prompt issues |
| OpenAiDialog.Defaults | src/features/executions/components/openai/dialog.tsx:84-100 | every field is the stored one, or "" when it is absent |
| OpenAiDialog.ReopenShowsSubmitted | src/features/executions/components/openai/dialog.tsx:84-100 | reopening on submitted values shows them again (an absent system prompt as ""), still valid |
| OpenAiDialog.Submit | src/features/executions/components/openai/dialog.tsx:106-109 | valid values are handed on and the dialog closes; otherwise nothing is handed on, the dialog stays as it was, and issues are shown |
| OpenAiDialog.PreviewIsReference | src/features/executions/components/openai/dialog.tsx:104-142 | the preview `Preview` shows is the reference `{{name.text}}`, with "myOpenAi" for an empty name |
| OpenAiDialog.PreviewResolves | src/features/executions/components/openai/dialog.tsx:140-142 | for an accepted name the previewed path is exactly the name and `text`, and resolves to the text the node stores |
| ExecutionsView.FormatStatus | src/features/executions/components/executions.tsx:154-156 | length kept (the empty string included), first character kept, the rest lower-cased |
| ExecutionsView.FormatStatusIdempotent | src/features/executions/components/executions.tsx:155 | formatting twice equals formatting once |
| ExecutionsView.StatusTitles | src/features/executions/components/executions.tsx:154-156 | PENDING, RUNNING, SUCCESS and FAILED are titled Pending, Running, Success and Failed |
| ExecutionsView.TitlesAreDistinct | src/features/executions/components/executions.tsx:154-156 | different statuses get different titles |
| ExecutionsView.StatusIcon | src/features/executions/components/executions.tsx:141-152 | check for SUCCESS, cross for FAILED, spinner for RUNNING, clock for every other status, each iff |
| ExecutionsView.Duration | src/features/executions/components/executions.tsx:170-173 | absent exactly when the execution has not completed; otherwise the elapsed milliseconds divided by 1000, rounded half up |
| Text.Contains | src/features/workflows/server/routers.ts:201-204 | true exactly when the search text occurs at some position of the name |
| Text.ContainsInsensitive | src/features/workflows/server/routers.ts:201-204 | `mode: "insensitive"`: true exactly when the lower-cased search text occurs in the lower-cased name; the empty search matches every name |
| Text.Lower | src/features/executions/components/executions.tsx:155 | same length, every character lower-cased |
| Text.LowerIdempotent | src/features/executions/components/executions.tsx:155 | lower-casing twice equals lower-casing once |

## Left out

- `topologicalSort` and `getExecutor` come from `src/inngest/utils` and the executor registry, which are not part of this model. The sorted node list is the result of the abstract `prepare` step, and the executor is an abstract function. No ordering or cycle property of the sort is claimed.
- Handlebars rendering and its `json` helper are an uninterpreted `render` function that may throw.
- External calls are inputs that may succeed or fail:
  - the AI SDK calls and provider construction;
  - `decrypt`;
  - the Anthropic key from the environment;
  - Inngest's `step.run` and `step.ai.wrap` durability;
  - Prisma queries.
- Retries are not modelled, and the run function is configured with none.
- Realtime channels are reduced to the channel name and the status topic's payload.
- `publish` is modelled as an infallible append to a log. A publish that throws is not modelled: inside the executors' `try` it would publish `error` and rethrow.
- The coordinator forwards each executor's events to the shared publisher after the call. In the source, executors publish during the call, so interleaving with other runs is not modelled.
- Database tables are in-memory sequences. The following are not modelled:
  - the `$transaction` atomicity;
  - the `Promise.all` concurrency of `getMany`;
  - connection ids generated by the database;
  - cascades on delete;
  - other constraints of the schema, which is not part of this model.
- Only the PAGINATION bound `pageSize >= 1` is used; the constants themselves are not part of this model. Fractional page numbers and bounds enforced by input validation are not modelled. A page below 1 gives a negative `skip`, which the database refuses; it is modelled as an error.
- Paginate: `totalPages` is characterised by `(totalPages-1)*pageSize < totalCount <= totalPages*pageSize`, the integer form of `Math.ceil`. Floating point is not modelled.
- The `execute`, `remove` and `updateName` procedures of the workflows router are not part of this model. Each is a single owner-filtered database call, or a call that sends an event to the engine.
- The workflow name comes from a random slug generator. It, the new ids and the clock are inputs to `Create` and `Update`.
- The case-insensitive search lower-cases ASCII letters only. Unicode case folding is not modelled.
- Duration: timestamps are integer milliseconds and `Math.round` is computed exactly. The floating-point division and `Date` objects are not modelled, nor is the relative-time text of `formatDistanceToNow`.
- React rendering, hooks, toasts and routing are not modelled, and neither are the dialog's `open` plumbing beyond the submit outcome.
- zod's parsing of non-string inputs is not modelled: the form always holds strings.
- The NodeType enum is generated from the database schema, which is not part of this model. Its members are taken from the node kinds the source names: INITIAL, the channels imported at src/inngest/functions.ts:8-15, and ANTHROPIC. Each member's key is also its stored value.
- Node positions are integers here; in the source they are numbers, which are used only by the canvas.
- WorkflowsRouter.ResolveNodeType: the rest of the model uses this corrected own-key resolver rather than the `in` check as written (see Findings).
- Not every per-node failure publishes `error`: a failure of template rendering, the Gemini credential step or decryption sits outside the `try` and propagates after `loading` alone, with no `error` event (GeminiExecutor.FailureBeforeTryPublishesNoError, AnthropicExecutor.RenderFailurePublishesNoError).
- Errors are kept as the code raises them: non-retriable errors with fixed messages, or the external error rethrown unchanged; they are not sorted into kinds.
- Unknown node types and cycles are detected by the topological sort and the executor registry, which are parameters here; the model does not check them.

## Findings

| source | as written | input that shows it | evidently intended | confidence | as-written member | corrected member |
|---|---|---|---|---|---|---|
| src/features/workflows/server/routers.ts:24-25 | `type in NodeType` also holds for names every object inherits, so `NodeType[type]` yields a prototype function, not a node type | a node whose `type` is "toString" (or "constructor", "valueOf") | only the enum's own keys resolve to a node type; any other non-empty string gives INITIAL | not executed | WorkflowsRouter.AsWrittenResolvesInheritedName | WorkflowsRouter.ResolveNodeType |
