/**
 * The executions router: read-only queries over execution rows, limited to executions
 * whose workflow belongs to the caller.
 */
module ExecutionsRouter {
  import opened Results
  import opened Schema
  import opened Listing
  import opened Access

  /** An execution with its workflow's id and name, as the queries include them. */
  datatype ExecutionItem = ExecutionItem(execution: ExecutionRow, workflowId: string, workflowName: string)

  /** The workflow row with the given id. */
  function WorkflowById(workflows: seq<WorkflowRow>, id: string): (r: Option<WorkflowRow>)
    ensures r.Some? ==> r.value in workflows && r.value.id == id
    ensures r.None? ==> forall w :: w in workflows ==> w.id != id
  {
    if workflows == [] then None
    else if workflows[0].id == id then Some(workflows[0])
    else WorkflowById(workflows[1..], id)
  }

  /** The relation filter `workflow: { userId }`. */
  predicate OwnedBy(workflows: seq<WorkflowRow>, userId: string, e: ExecutionRow) {
    WorkflowById(workflows, e.workflowId).Some? && WorkflowById(workflows, e.workflowId).value.userId == userId
  }

  function Item(workflows: seq<WorkflowRow>, e: ExecutionRow): ExecutionItem
    requires WorkflowById(workflows, e.workflowId).Some?
  {
    var w := WorkflowById(workflows, e.workflowId).value;
    ExecutionItem(e, w.id, w.name)
  }

  function StartedAt(item: ExecutionItem): int {
    item.execution.startedAt
  }

  /** The caller's executions with their workflow, in table order. */
  function OwnedItems(workflows: seq<WorkflowRow>, executions: seq<ExecutionRow>, userId: string): (r: seq<ExecutionItem>)
    ensures |r| <= |executions|
    ensures forall k :: 0 <= k < |r| ==> r[k].execution in executions && OwnedBy(workflows, userId, r[k].execution)
                                         && r[k] == Item(workflows, r[k].execution)
    ensures forall e :: e in executions && OwnedBy(workflows, userId, e) ==> Item(workflows, e) in r
  {
    if executions == [] then []
    else
      var rest := OwnedItems(workflows, executions[1..], userId);
      if OwnedBy(workflows, userId, executions[0]) then [Item(workflows, executions[0])] + rest else rest
  }

  /** `getOne`: the execution with this id if its workflow is the caller's. */
  function GetOne(session: Option<Session>, workflows: seq<WorkflowRow>, executions: seq<ExecutionRow>, id: string)
    : (r: Result<ExecutionItem>)
    ensures session.None? ==> r == Err(Unauthorized)
    ensures r.Ok? ==> r.value.execution in executions && r.value.execution.id == id
                      && OwnedBy(workflows, session.value.userId, r.value.execution)
                      && r.value.workflowId == r.value.execution.workflowId
                      && r.value == Item(workflows, r.value.execution)
    ensures session.Some? && r.Err? ==>
              r.error == RecordNotFound
              && forall e :: e in executions && e.id == id ==> !OwnedBy(workflows, session.value.userId, e)
  {
    match Protected(session)
    case Err(e) => Err(e)
    case Ok(s) => FindOwnedExecution(workflows, executions, s.userId, id)
  }

  function FindOwnedExecution(workflows: seq<WorkflowRow>, executions: seq<ExecutionRow>, userId: string, id: string)
    : (r: Result<ExecutionItem>)
    ensures r.Ok? ==> r.value.execution in executions && r.value.execution.id == id
                      && OwnedBy(workflows, userId, r.value.execution)
                      && r.value.workflowId == r.value.execution.workflowId
                      && r.value == Item(workflows, r.value.execution)
    ensures r.Err? ==> r.error == RecordNotFound
                       && forall e :: e in executions && e.id == id ==> !OwnedBy(workflows, userId, e)
  {
    if executions == [] then Err(RecordNotFound)
    else if executions[0].id == id && OwnedBy(workflows, userId, executions[0]) then Ok(Item(workflows, executions[0]))
    else FindOwnedExecution(workflows, executions[1..], userId, id)
  }

  /** `getMany`: the caller's executions, latest start first, one page of them. */
  function GetMany(session: Option<Session>, workflows: seq<WorkflowRow>, executions: seq<ExecutionRow>,
                   page: int, pageSize: int): (r: Result<Page<ExecutionItem>>)
    requires pageSize >= 1
    ensures session.None? ==> r == Err(Unauthorized)
    ensures session.Some? ==>
              r == Paginate(SortDesc(OwnedItems(workflows, executions, session.value.userId), StartedAt), page, pageSize)
  {
    match Protected(session)
    case Err(e) => Err(e)
    case Ok(s) => Paginate(SortDesc(OwnedItems(workflows, executions, s.userId), StartedAt), page, pageSize)
  }

  /**
   * A listed page holds only the caller's executions, in descending start order, and
   * its total counts exactly the caller's executions.
   */
  lemma ListedPageIsOwnedAndOrdered(session: Session, workflows: seq<WorkflowRow>, executions: seq<ExecutionRow>,
                                    page: int, pageSize: int)
    requires pageSize >= 1 && page >= 1
    ensures var p := GetMany(Some(session), workflows, executions, page, pageSize).value;
            && p.totalCount == |OwnedItems(workflows, executions, session.userId)|
            && SortedDesc(p.items, StartedAt)
            && forall x :: x in p.items ==>
                 x.execution in executions && OwnedBy(workflows, session.userId, x.execution)
  {
    var owned := OwnedItems(workflows, executions, session.userId);
    var sorted := SortDesc(owned, StartedAt);
    assert |sorted| == |multiset(sorted)| == |multiset(owned)| == |owned|;
    var p := Paginate(sorted, page, pageSize).value;
    assert Skip(page, pageSize) >= 0 by { MulMonotone(0, page - 1, pageSize); }
    WindowOfSorted(sorted, Skip(page, pageSize), pageSize, StartedAt);
    assert p.items == Window(sorted, Skip(page, pageSize), pageSize);
    forall x | x in sorted
      ensures x.execution in executions && OwnedBy(workflows, session.userId, x.execution)
    {
      assert x in multiset(owned);
      var k :| 0 <= k < |owned| && owned[k] == x;
    }
  }
}
