/**
 * The workflows router: node-type normalisation, the mappings between the editor's
 * nodes/edges and the stored rows, and the procedures that create, replace, read and
 * list workflows.
 */
module WorkflowsRouter {
  import opened Results
  import opened ExecutionContext
  import opened Schema
  import opened Text
  import opened Listing
  import opened Access

  // ----- node types -----

  /** The enum member whose key is `s`, if any (an own-key lookup). */
  function NodeTypeNamed(s: string): (r: Option<NodeType>)
    ensures r.Some? ==> NodeTypeName(r.value) == s
    ensures r.None? ==> forall t: NodeType :: NodeTypeName(t) != s
  {
    if s == "INITIAL" then Some(INITIAL)
    else if s == "MANUAL_TRIGGER" then Some(MANUAL_TRIGGER)
    else if s == "HTTP_REQUEST" then Some(HTTP_REQUEST)
    else if s == "GOOGLE_FORM_TRIGGER" then Some(GOOGLE_FORM_TRIGGER)
    else if s == "STRIPE_TRIGGER" then Some(STRIPE_TRIGGER)
    else if s == "GEMINI" then Some(GEMINI)
    else if s == "OPENAI" then Some(OPENAI)
    else if s == "ANTHROPIC" then Some(ANTHROPIC)
    else if s == "DISCORD" then Some(DISCORD)
    else if s == "SLACK" then Some(SLACK)
    else None
  }

  /**
   * The names every plain JavaScript object answers to through its prototype, so that
   * `name in obj` holds for them although `obj` has no such key of its own.
   */
  const ObjectPrototypeNames: set<string> := {
    "constructor", "hasOwnProperty", "isPrototypeOf", "propertyIsEnumerable",
    "toLocaleString", "toString", "valueOf", "__proto__",
    "__defineGetter__", "__defineSetter__", "__lookupGetter__", "__lookupSetter__"
  }

  /** What `NodeType[type]` yields: an enum member, or an inherited prototype member. */
  datatype EnumLookup = Member(nodeType: NodeType) | Inherited(name: string)

  /**
   * `resolveNodeType` as written: `type in NodeType` also holds for inherited names, and
   * `NodeType[type]` then yields the inherited member instead of a node type.
   */
  function ResolveNodeTypeAsWritten(t: Option<string>): (r: EnumLookup)
    ensures r.Inherited? <==> Truthy(t) && t.value in ObjectPrototypeNames
  {
    if !Truthy(t) then Member(INITIAL)
    else if NodeTypeNamed(t.value).Some? then Member(NodeTypeNamed(t.value).value)
    else if t.value in ObjectPrototypeNames then Inherited(t.value)
    else Member(INITIAL)
  }

  /** The discrepancy: the type string "toString" does not resolve to a node type. */
  lemma AsWrittenResolvesInheritedName()
    ensures ResolveNodeTypeAsWritten(Some("toString")) == Inherited("toString")
  {
    assert "toString" in ObjectPrototypeNames;
  }

  /**
   * `resolveNodeType` with an own-key check: absent or empty gives INITIAL, the key of
   * a node type gives that type, anything else gives INITIAL.
   */
  function ResolveNodeType(t: Option<string>): (r: NodeType)
    ensures !Truthy(t) ==> r == INITIAL
    ensures Truthy(t) && (exists k: NodeType :: NodeTypeName(k) == t.value) ==> NodeTypeName(r) == t.value
    ensures Truthy(t) && (forall k: NodeType :: NodeTypeName(k) != t.value) ==> r == INITIAL
  {
    if !Truthy(t) then INITIAL
    else match NodeTypeNamed(t.value)
      case Some(k) => k
      case None => INITIAL
  }

  /** The corrected resolver agrees with the written one wherever the latter returns a node type. */
  lemma ResolveAgreesOnMembers(t: Option<string>)
    requires ResolveNodeTypeAsWritten(t).Member?
    ensures ResolveNodeTypeAsWritten(t) == Member(ResolveNodeType(t))
  {
  }

  /** Resolving a node type's own key gives that type back. */
  lemma ResolveNodeTypeName(k: NodeType)
    ensures ResolveNodeType(Some(NodeTypeName(k))) == k
  {
    match k
    case INITIAL =>
    case MANUAL_TRIGGER =>
    case HTTP_REQUEST =>
    case GOOGLE_FORM_TRIGGER =>
    case STRIPE_TRIGGER =>
    case GEMINI =>
    case OPENAI =>
    case ANTHROPIC =>
    case DISCORD =>
    case SLACK =>
  }

  // ----- editor values and their rows -----

  /** A node as the editor sends it; `type` and `data` may be null or absent. */
  datatype NodeInput = NodeInput(id: string, nodeType: Option<string>, position: Position, data: Option<map<string, Json>>)

  /** An edge as the editor sends it; handles may be null, absent or empty. */
  datatype EdgeInput = EdgeInput(source: string, target: string, sourceHandle: Option<string>, targetHandle: Option<string>)

  datatype NodeView = NodeView(id: string, nodeType: NodeType, position: Position, data: map<string, Json>)

  datatype EdgeView = EdgeView(source: string, target: string, sourceHandle: string, targetHandle: string)

  datatype WorkflowView = WorkflowView(id: string, name: string, nodes: seq<NodeView>, edges: seq<EdgeView>)

  const DefaultPort := "main"

  /** The row `update` stores for an editor node: name `type ?? "unknown"`, data `data ?? {}`. */
  function ToNodeRow(workflowId: string, n: NodeInput): (r: NodeRow)
    ensures r.id == n.id && r.workflowId == workflowId && r.position == n.position
    ensures r.name == (if n.nodeType.Some? then n.nodeType.value else "unknown")
    ensures r.nodeType == ResolveNodeType(n.nodeType)
    ensures r.data == Some(n.data.GetOr(map[]))
  {
    NodeRow(n.id, workflowId, if n.nodeType.Some? then n.nodeType.value else "unknown",
            ResolveNodeType(n.nodeType), n.position, Some(n.data.GetOr(map[])))
  }

  /** The row `update` stores for an edge: each handle `|| "main"`. */
  function ToConnectionRow(workflowId: string, e: EdgeInput): (r: ConnectionRow)
    ensures r.workflowId == workflowId && r.fromNodeId == e.source && r.toNodeId == e.target
    ensures r.fromOutput == OrElse(e.sourceHandle, DefaultPort)
    ensures r.toInput == OrElse(e.targetHandle, DefaultPort)
  {
    ConnectionRow(workflowId, e.source, e.target, OrElse(e.sourceHandle, DefaultPort), OrElse(e.targetHandle, DefaultPort))
  }

  /** The node `getOne` returns for a row: data `|| {}`. */
  function ToNodeView(row: NodeRow): NodeView {
    NodeView(row.id, row.nodeType, row.position, row.data.GetOr(map[]))
  }

  /** The edge `getOne` returns for a connection row. */
  function ToEdgeView(c: ConnectionRow): EdgeView {
    EdgeView(c.fromNodeId, c.toNodeId, c.fromOutput, c.toInput)
  }

  /** Save then load: endpoints kept, non-empty handles kept, missing or empty ones become "main". */
  lemma EdgeRoundTrip(workflowId: string, e: EdgeInput)
    ensures var v := ToEdgeView(ToConnectionRow(workflowId, e));
            && v.source == e.source && v.target == e.target
            && (Truthy(e.sourceHandle) ==> v.sourceHandle == e.sourceHandle.value)
            && (Truthy(e.targetHandle) ==> v.targetHandle == e.targetHandle.value)
            && (!Truthy(e.sourceHandle) ==> v.sourceHandle == DefaultPort)
            && (!Truthy(e.targetHandle) ==> v.targetHandle == DefaultPort)
  {
  }

  /** The editor's form of a loaded edge. */
  function ToEdgeInput(v: EdgeView): EdgeInput {
    EdgeInput(v.source, v.target, Some(v.sourceHandle), Some(v.targetHandle))
  }

  /** Saving what was loaded stores the same connection: save, load, save is save. */
  lemma EdgeSaveIsStable(workflowId: string, e: EdgeInput)
    ensures ToConnectionRow(workflowId, ToEdgeInput(ToEdgeView(ToConnectionRow(workflowId, e))))
            == ToConnectionRow(workflowId, e)
  {
  }

  /** Save then load of a node: id, position and data kept (absent data as {}), type normalised. */
  lemma NodeRoundTrip(workflowId: string, n: NodeInput)
    ensures ToNodeView(ToNodeRow(workflowId, n))
            == NodeView(n.id, ResolveNodeType(n.nodeType), n.position, n.data.GetOr(map[]))
  {
  }

  function NodeRows(workflowId: string, nodes: seq<NodeInput>): (r: seq<NodeRow>)
    ensures |r| == |nodes|
    ensures forall k :: 0 <= k < |r| ==> r[k] == ToNodeRow(workflowId, nodes[k])
  {
    seq(|nodes|, k requires 0 <= k < |nodes| => ToNodeRow(workflowId, nodes[k]))
  }

  function ConnectionRows(workflowId: string, edges: seq<EdgeInput>): (r: seq<ConnectionRow>)
    ensures |r| == |edges|
    ensures forall k :: 0 <= k < |r| ==> r[k] == ToConnectionRow(workflowId, edges[k])
  {
    seq(|edges|, k requires 0 <= k < |edges| => ToConnectionRow(workflowId, edges[k]))
  }

  function NodeViews(rows: seq<NodeRow>): (r: seq<NodeView>)
    ensures |r| == |rows|
    ensures forall k :: 0 <= k < |r| ==> r[k] == ToNodeView(rows[k])
  {
    seq(|rows|, k requires 0 <= k < |rows| => ToNodeView(rows[k]))
  }

  function EdgeViews(rows: seq<ConnectionRow>): (r: seq<EdgeView>)
    ensures |r| == |rows|
    ensures forall k :: 0 <= k < |r| ==> r[k] == ToEdgeView(rows[k])
  {
    seq(|rows|, k requires 0 <= k < |rows| => ToEdgeView(rows[k]))
  }

  function NodeWorkflow(row: NodeRow): string {
    row.workflowId
  }

  function ConnectionWorkflow(row: ConnectionRow): string {
    row.workflowId
  }

  function UpdatedAt(w: WorkflowRow): int {
    w.updatedAt
  }

  /** `findUniqueOrThrow({ where: { id, userId } })` on the workflow table. */
  function FindOwned(workflows: seq<WorkflowRow>, id: string, userId: string): (r: Option<nat>)
    ensures r.Some? ==> r.value < |workflows| && workflows[r.value].id == id && workflows[r.value].userId == userId
    ensures r.None? ==> forall k :: 0 <= k < |workflows| ==> !(workflows[k].id == id && workflows[k].userId == userId)
  {
    if workflows == [] then None
    else if workflows[0].id == id && workflows[0].userId == userId then Some(0)
    else match FindOwned(workflows[1..], id, userId)
      case None => None
      case Some(k) => Some(k + 1)
  }

  /** The name filter of `getMany`: `contains` the search text, case-insensitively. */
  predicate MatchesSearch(w: WorkflowRow, userId: string, search: string) {
    w.userId == userId && ContainsInsensitive(w.name, search)
  }

  /** The rows `getMany` lists: the user's workflows matching the search, newest update first. */
  function Listed(workflows: seq<WorkflowRow>, userId: string, search: string): (r: seq<WorkflowRow>)
    ensures SortedDesc(r, UpdatedAt)
    ensures forall w :: w in r <==> w in workflows && MatchesSearch(w, userId, search)
  {
    var matching := Matching(workflows, userId, search);
    var sorted := SortDesc(matching, UpdatedAt);
    assert forall w :: w in sorted <==> w in multiset(matching);
    sorted
  }

  /** The `where` clause of `getMany`: the user's workflows whose name contains the search text. */
  function Matching(workflows: seq<WorkflowRow>, userId: string, search: string): (r: seq<WorkflowRow>)
    ensures forall w :: w in r <==> w in workflows && MatchesSearch(w, userId, search)
  {
    if workflows == [] then []
    else if MatchesSearch(workflows[0], userId, search) then [workflows[0]] + Matching(workflows[1..], userId, search)
    else Matching(workflows[1..], userId, search)
  }

  /** The default empty search lists every workflow of the user. */
  lemma EmptySearchListsAll(workflows: seq<WorkflowRow>, userId: string)
    ensures forall w :: w in Listed(workflows, userId, "") <==> w in workflows && w.userId == userId
  {
    forall w: WorkflowRow ensures ContainsInsensitive(w.name, "") {
      assert OccursAt(Lower(w.name), Lower(""), 0);
    }
  }

  /** A listed page holds only the user's matching workflows, newest update first. */
  lemma ListedPageMatches(workflows: seq<WorkflowRow>, userId: string, search: string, page: int, pageSize: int)
    requires pageSize >= 1 && page >= 1
    ensures var p := Paginate(Listed(workflows, userId, search), page, pageSize).value;
            && SortedDesc(p.items, UpdatedAt)
            && forall w :: w in p.items ==> w in workflows && MatchesSearch(w, userId, search)
  {
    var rows := Listed(workflows, userId, search);
    assert Skip(page, pageSize) >= 0 by { MulMonotone(0, page - 1, pageSize); }
    WindowOfSorted(rows, Skip(page, pageSize), pageSize, UpdatedAt);
  }

  /** Some stored workflow has this id (the target of a row's foreign key). */
  ghost predicate HasWorkflow(workflows: seq<WorkflowRow>, id: string) {
    exists k :: 0 <= k < |workflows| && workflows[k].id == id
  }

  /** The persisted workflow, node and connection tables. */
  class Database {
    var workflows: seq<WorkflowRow>
    var nodes: seq<NodeRow>
    var connections: seq<ConnectionRow>

    /** Workflow ids are unique, and every node and connection row belongs to a stored workflow. */
    ghost predicate Valid()
      reads this
    {
      && UniqueIds(workflows)
      && (forall n :: n in nodes ==> HasWorkflow(workflows, n.workflowId))
      && (forall c :: c in connections ==> HasWorkflow(workflows, c.workflowId))
    }

    constructor ()
      ensures Valid() && workflows == [] && nodes == [] && connections == []
    {
      workflows, nodes, connections := [], [], [];
    }

    /** `getOne`: the caller's workflow with its nodes and edges in editor form. */
    function GetOne(session: Option<Session>, id: string): (r: Result<WorkflowView>)
      reads this
      ensures session.None? ==> r == Err(Unauthorized)
      ensures session.Some? && FindOwned(workflows, id, session.value.userId).None? ==> r == Err(RecordNotFound)
      ensures session.Some? && FindOwned(workflows, id, session.value.userId).Some? ==> r.Ok?
      ensures r.Ok? ==> r.value.id == id
                        && r.value.name == workflows[FindOwned(workflows, id, session.value.userId).value].name
                        && r.value.nodes == NodeViews(Select(nodes, NodeWorkflow, id))
                        && r.value.edges == EdgeViews(Select(connections, ConnectionWorkflow, id))
    {
      match Protected(session)
      case Err(e) => Err(e)
      case Ok(s) =>
        match FindOwned(workflows, id, s.userId)
        case None => Err(RecordNotFound)
        case Some(k) =>
          Ok(WorkflowView(id, workflows[k].name,
                          NodeViews(Select(nodes, NodeWorkflow, id)),
                          EdgeViews(Select(connections, ConnectionWorkflow, id))))
    }

    /**
     * `getMany`: the caller's workflows whose name contains `search`, newest update
     * first, one page of them.
     */
    function GetMany(session: Option<Session>, page: int, pageSize: int, search: string): (r: Result<Page<WorkflowRow>>)
      requires pageSize >= 1
      reads this
      ensures session.None? ==> r == Err(Unauthorized)
      ensures session.Some? ==> r == Paginate(Listed(workflows, session.value.userId, search), page, pageSize)
    {
      match Protected(session)
      case Err(e) => Err(e)
      case Ok(s) => Paginate(Listed(workflows, s.userId, search), page, pageSize)
    }

    /**
     * `create` behind the premium procedure: a new workflow for the caller holding one
     * INITIAL node at (0, 0). `id`, `nodeId` and `name` are what the database and the
     * slug generator supply; `now` is the clock.
     */
    method Create(session: Option<Session>, lookup: string -> Result<Customer>,
                  id: string, name: string, nodeId: string, now: int) returns (r: Result<WorkflowRow>)
      requires Valid()
      requires forall k :: 0 <= k < |workflows| ==> workflows[k].id != id
      modifies this
      ensures Valid()
      ensures old(Premium(session, workflows, lookup)).Err? ==>
                r == Err(old(Premium(session, workflows, lookup)).error)
                && workflows == old(workflows) && nodes == old(nodes) && connections == old(connections)
      ensures old(Premium(session, workflows, lookup)).Ok? ==>
                var row := WorkflowRow(id, name, session.value.userId, now);
                && r == Ok(row)
                && workflows == old(workflows) + [row]
                && nodes == old(nodes) + [NodeRow(nodeId, id, NodeTypeName(INITIAL), INITIAL, Position(0, 0), None)]
                && connections == old(connections)
                && Select(nodes, NodeWorkflow, id) == [NodeRow(nodeId, id, NodeTypeName(INITIAL), INITIAL, Position(0, 0), None)]
                && Select(connections, ConnectionWorkflow, id) == []
                && CountOwned(workflows, session.value.userId) == old(CountOwned(workflows, session.value.userId)) + 1
    {
      var admission := Premium(session, workflows, lookup);
      if admission.Err? {
        return Err(admission.error);
      }
      var row := WorkflowRow(id, name, admission.value.session.userId, now);
      var initial := NodeRow(nodeId, id, NodeTypeName(INITIAL), INITIAL, Position(0, 0), None);
      CountOwnedAppend(workflows, row, row.userId);
      // No row can belong to the new id yet: every row's workflow is stored, and the id is fresh.
      forall w | HasWorkflow(workflows, w) ensures w != id {
        var j :| 0 <= j < |workflows| && workflows[j].id == w;
      }
      NoneSelected(nodes, NodeWorkflow, id);
      NoneSelected(connections, ConnectionWorkflow, id);
      SelectAppend(nodes, [initial], NodeWorkflow, id);
      ghost var before := workflows;
      workflows := workflows + [row];
      nodes := nodes + [initial];
      forall w | HasWorkflow(before, w) || w == id ensures HasWorkflow(workflows, w) {
        if w == id {
          assert workflows[|before|].id == w;
        } else {
          var j :| 0 <= j < |before| && before[j].id == w;
          assert workflows[j].id == w;
        }
      }
      r := Ok(row);
    }

    /**
     * `update`: after the ownership check, the workflow's node and connection rows are
     * replaced by the editor's, other workflows' rows are kept, and `updatedAt` is set.
     */
    method Update(session: Option<Session>, id: string, nodeInputs: seq<NodeInput>, edgeInputs: seq<EdgeInput>, now: int)
      returns (r: Result<WorkflowRow>)
      requires Valid()
      modifies this
      ensures Valid()
      ensures session.None? ==> r == Err(Unauthorized)
      ensures session.Some? && old(FindOwned(workflows, id, session.value.userId)).None? ==> r == Err(RecordNotFound)
      ensures session.Some? && old(FindOwned(workflows, id, session.value.userId)).Some? ==> r.Ok?
      ensures r.Err? ==> workflows == old(workflows) && nodes == old(nodes) && connections == old(connections)
      ensures r.Ok? ==>
                && session.Some? && old(FindOwned(workflows, id, session.value.userId)).Some?
                && nodes == Drop(old(nodes), NodeWorkflow, id) + NodeRows(id, nodeInputs)
                && connections == Drop(old(connections), ConnectionWorkflow, id) + ConnectionRows(id, edgeInputs)
                && Select(nodes, NodeWorkflow, id) == NodeRows(id, nodeInputs)
                && Select(connections, ConnectionWorkflow, id) == ConnectionRows(id, edgeInputs)
                && (forall w :: w != id ==> Select(nodes, NodeWorkflow, w) == Select(old(nodes), NodeWorkflow, w))
                && (forall w :: w != id ==> Select(connections, ConnectionWorkflow, w)
                                            == Select(old(connections), ConnectionWorkflow, w))
                && (var k := old(FindOwned(workflows, id, session.value.userId)).value;
                    workflows == old(workflows)[k := old(workflows)[k].(updatedAt := now)] && r.value == workflows[k])
                && r.value.id == id && r.value.updatedAt == now
                && GetOne(session, id) == Ok(WorkflowView(id, r.value.name,
                                                          NodeViews(NodeRows(id, nodeInputs)),
                                                          EdgeViews(ConnectionRows(id, edgeInputs))))
    {
      var s := Protected(session);
      if s.Err? {
        return Err(s.error);
      }
      var found := FindOwned(workflows, id, s.value.userId);
      if found.None? {
        return Err(RecordNotFound);
      }
      var k := found.value;
      var newNodes := NodeRows(id, nodeInputs);
      var newConnections := ConnectionRows(id, edgeInputs);
      forall w | true
        ensures Select(Drop(nodes, NodeWorkflow, id) + newNodes, NodeWorkflow, w)
                == if w == id then newNodes else Select(nodes, NodeWorkflow, w)
        ensures Select(Drop(connections, ConnectionWorkflow, id) + newConnections, ConnectionWorkflow, w)
                == if w == id then newConnections else Select(connections, ConnectionWorkflow, w)
      {
        ReplaceRows(nodes, newNodes, NodeWorkflow, id, w);
        ReplaceRows(connections, newConnections, ConnectionWorkflow, id, w);
      }
      nodes := Drop(nodes, NodeWorkflow, id) + newNodes;
      connections := Drop(connections, ConnectionWorkflow, id) + newConnections;
      var row := workflows[k].(updatedAt := now);
      ghost var before := workflows;
      workflows := workflows[k := row];
      forall w | HasWorkflow(before, w) ensures HasWorkflow(workflows, w) {
        var j :| 0 <= j < |before| && before[j].id == w;
        assert workflows[j].id == w;
      }
      forall n | n in nodes ensures HasWorkflow(workflows, n.workflowId) {
        if n in newNodes { assert workflows[k].id == n.workflowId; }
      }
      forall c | c in connections ensures HasWorkflow(workflows, c.workflowId) {
        if c in newConnections { assert workflows[k].id == c.workflowId; }
      }
      assert FindOwned(workflows, id, s.value.userId) == Some(k) by {
        UniqueFind(workflows, id, s.value.userId, k);
      }
      r := Ok(row);
    }
  }

  /** With unique ids, the owner's row at position k is the one the lookup finds. */
  lemma {:induction false} UniqueFind(workflows: seq<WorkflowRow>, id: string, userId: string, k: nat)
    requires UniqueIds(workflows)
    requires k < |workflows| && workflows[k].id == id && workflows[k].userId == userId
    ensures FindOwned(workflows, id, userId) == Some(k)
  {
    if k > 0 {
      assert workflows[0].id != id;
      UniqueFind(workflows[1..], id, userId, k - 1);
    }
  }
}
