/** The persisted rows the routers and the run coordinator read and write. */
module Schema {
  import opened Results
  import opened ExecutionContext

  /** The node type enumeration (the generated database enum). */
  datatype NodeType =
    | INITIAL
    | MANUAL_TRIGGER
    | HTTP_REQUEST
    | GOOGLE_FORM_TRIGGER
    | STRIPE_TRIGGER
    | GEMINI
    | OPENAI
    | ANTHROPIC
    | DISCORD
    | SLACK

  /** The enum's key, which is also its stored value. */
  function NodeTypeName(t: NodeType): string {
    match t
    case INITIAL => "INITIAL"
    case MANUAL_TRIGGER => "MANUAL_TRIGGER"
    case HTTP_REQUEST => "HTTP_REQUEST"
    case GOOGLE_FORM_TRIGGER => "GOOGLE_FORM_TRIGGER"
    case STRIPE_TRIGGER => "STRIPE_TRIGGER"
    case GEMINI => "GEMINI"
    case OPENAI => "OPENAI"
    case ANTHROPIC => "ANTHROPIC"
    case DISCORD => "DISCORD"
    case SLACK => "SLACK"
  }

  /** Canvas coordinates (UI only). */
  datatype Position = Position(x: int, y: int)

  datatype WorkflowRow = WorkflowRow(id: string, name: string, userId: string, updatedAt: int)

  /** A node row; `data` is absent when the row was created without configuration. */
  datatype NodeRow = NodeRow(
    id: string,
    workflowId: string,
    name: string,
    nodeType: NodeType,
    position: Position,
    data: Option<map<string, Json>>)

  datatype ConnectionRow = ConnectionRow(
    workflowId: string,
    fromNodeId: string,
    toNodeId: string,
    fromOutput: string,
    toInput: string)

  datatype ExecutionStatus = PENDING | RUNNING | SUCCESS | FAILED

  /** An execution row; timestamps are milliseconds. */
  datatype ExecutionRow = ExecutionRow(
    id: string,
    workflowId: string,
    status: ExecutionStatus,
    startedAt: int,
    completedAt: Option<int>)

  /** The workflow ids of a table are distinct (its primary key). */
  ghost predicate UniqueIds(workflows: seq<WorkflowRow>) {
    forall i, j :: 0 <= i < j < |workflows| ==> workflows[i].id != workflows[j].id
  }
}
