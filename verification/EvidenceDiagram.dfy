/** The evidence diagram: selected tool journals added one by one to a thread's diagram, with
    shared nodes for the snapshot events and workflow steps that they came from. */
module EvidenceDiagram {
  import opened Collections
  import opened TurnKey
  import opened EvidenceOrigin

  const MAX_NODES := 128
  const MAX_EDGES := 512
  const MAX_JOURNALS := 32

  // ----- Nodes and edges -----

  /** Node ids by their textual prefix; base nodes are the run and its checkpoints. */
  datatype NodeId =
    | BaseNode(name: string) | JournalNode(id: string) | EventNode(turn: string) | StepNode(plan: nat, step: nat)

  datatype Fields =
    | BaseFields(text: string)
    | JournalFields(content: string, origin: OriginStatus)
    | EventFields(key: Key, step: StepPart)
    | StepFields

  datatype Relation =
    | BaseRelation(text: string) | SameRun | SnapshotContains | SameCallIdentity(call: nat) | PreparedForStep

  datatype Edge = Edge(from: NodeId, to: NodeId, relation: Relation)

  // ----- What is read -----

  /** One journal after all its own checks, or the error of reading or checking it. */
  datatype Journal = Journal(turn: string, callId: string, tool: string, content: string) | JournalError(rc: Error)

  datatype Request = Request(base: seq<NodeId>, baseFields: map<NodeId, Fields>, baseEdges: seq<Edge>,
                             journal: string -> Journal, snapshot: Snapshot, origins: bool, steps: bool, sizeMax: nat)

  function SetOf<T>(s: seq<T>): set<T> {
    set x | x in s
  }

  ghost predicate BaseOk(r: Request) {
    && 1 <= |r.base| <= 128 && |r.baseEdges| <= 512 && NoneTwice(r.base) && r.sizeMax >= 9
    && r.baseFields.Keys == SetOf(r.base)
    && (forall n :: n in r.base ==> n.BaseNode?)
    && (forall e :: e in r.baseEdges ==> e.relation.BaseRelation?)
  }

  function Origin(r: Request, id: string): Resolution {
    match r.journal(id)
    case JournalError(rc) => ResolutionError(rc)
    case Journal(turn, callId, tool, _) =>
      if !r.origins then NoOrigin(NoStatus) else Resolve(r.snapshot, turn, callId, tool, r.steps, r.sizeMax)
  }

  // ----- What one journal contributes -----

  function StepIds(step: StepPart): set<NodeId> {
    if step.PreparedFor? then {StepNode(step.plan, step.step)} else {}
  }

  function StepEdges(run: NodeId, turn: string, step: StepPart): set<Edge> {
    if step.PreparedFor? then
      {Edge(run, StepNode(step.plan, step.step), SnapshotContains),
       Edge(StepNode(step.plan, step.step), EventNode(turn), PreparedForStep)}
    else {}
  }

  function IdsOf(r: Request, id: string): set<NodeId> {
    var j, o := r.journal(id), Origin(r, id);
    {JournalNode(id)} + (if j.Journal? && o.Matched? then {EventNode(j.turn)} + StepIds(o.step) else {})
  }

  function EdgesOf(r: Request, run: NodeId, id: string): set<Edge> {
    var j, o := r.journal(id), Origin(r, id);
    {Edge(run, JournalNode(id), SameRun)}
    + (if j.Journal? && o.Matched? then
         {Edge(run, EventNode(j.turn), SnapshotContains)} + StepEdges(run, j.turn, o.step)
         + {Edge(EventNode(j.turn), JournalNode(id), SameCallIdentity(o.call))}
       else {})
  }

  predicate Readable(r: Request, id: string) {
    r.journal(id).Journal? && !Origin(r, id).ResolutionError?
  }

  function NewIds(r: Request, ids: set<string>): set<NodeId> {
    set id, n | id in ids && n in IdsOf(r, id) :: n
  }

  function NewEdges(r: Request, run: NodeId, ids: set<string>): set<Edge> {
    set id, e | id in ids && e in EdgesOf(r, run, id) :: e
  }

  ghost predicate ContentOf(r: Request, id: string, fields: map<NodeId, Fields>)
    requires Readable(r, id)
  {
    var j, o := r.journal(id), Origin(r, id);
    && JournalNode(id) in fields && fields[JournalNode(id)] == JournalFields(j.content, StatusFrom(o))
    && (o.Matched? ==>
          && EventNode(j.turn) in fields && fields[EventNode(j.turn)] == EventFields(o.key, o.step)
          && (o.step.PreparedFor? ==>
                && StepNode(o.step.plan, o.step.step) in fields
                && fields[StepNode(o.step.plan, o.step.step)] == StepFields))
  }

  // ----- The diagram -----

  class Diagram {
    var nodes: seq<NodeId>
    var edges: seq<Edge>
    var fields: map<NodeId, Fields>

    constructor (r: Request)
      ensures nodes == r.base && edges == r.baseEdges && fields == r.baseFields
    {
      nodes, edges, fields := r.base, r.baseEdges, r.baseFields;
    }

    /** Linear search; the length when absent. */
    method NodeIndex(id: NodeId) returns (i: nat)
      ensures i <= |nodes| && (i < |nodes| <==> id in nodes) && (i < |nodes| ==> nodes[i] == id)
    {
      i := 0;
      while i < |nodes| && nodes[i] != id
        invariant i <= |nodes| && id !in nodes[..i]
      {
        i := i + 1;
      }
    }

    method AddNode(id: NodeId, f: Fields) returns (rc: Rc)
      modifies this`nodes, this`fields
      ensures rc == if |old(nodes)| >= 128 then ENOSPC else if id in old(nodes) then EPROTO else OK
      ensures rc == OK ==> nodes == old(nodes) + [id] && fields == old(fields)[id := f]
      ensures rc != OK ==> nodes == old(nodes) && fields == old(fields)
    {
      if |nodes| >= MAX_NODES { return ENOSPC; }
      var i := NodeIndex(id);
      if i < |nodes| { return EPROTO; }
      nodes, fields, rc := nodes + [id], fields[id := f], OK;
    }

    method AddEdge(e: Edge) returns (rc: Rc)
      modifies this`edges
      ensures rc == if nodes == [] then EPROTO
                    else if |nodes| > 128 || |old(edges)| >= 512 then ENOSPC
                    else if e.from !in nodes || e.to !in nodes then EPROTO else OK
      ensures edges == if rc == OK then old(edges) + [e] else old(edges)
    {
      if |nodes| == 0 { return EPROTO; }
      if |nodes| > MAX_NODES || |edges| >= MAX_EDGES { return ENOSPC; }
      var i := NodeIndex(e.from);
      var j := NodeIndex(e.to);
      if i == |nodes| || j == |nodes| { return EPROTO; }
      edges, rc := edges + [e], OK;
    }
  }
}
