/** Building the evidence diagram, and why the order of the journals does not matter. */
module EvidenceExport {
  import opened Collections
  import opened TurnKey
  import opened EvidenceOrigin
  import opened EvidenceDiagram

  function Run(r: Request): NodeId
    requires |r.base| > 0
  {
    r.base[0]
  }

  lemma RunIsBase(r: Request)
    requires BaseOk(r)
    ensures |r.base| > 0 && Run(r).BaseNode?
  {
    assert r.base[0] in r.base;
  }

  // ----- Sets behind the node and edge lists -----

  lemma {:induction false} CountOf<T>(s: seq<T>)
    requires NoneTwice(s)
    ensures |SetOf(s)| == |s|
  {
    if s != [] {
      var init := s[..|s| - 1];
      CountOf(init);
      assert SetOf(s) == SetOf(init) + {s[|s| - 1]};
      assert s[|s| - 1] !in init;
    }
  }

  /** The node list is the base followed by these nodes, each once. */
  ghost predicate NodesHold(nodes: seq<NodeId>, r: Request, added: set<NodeId>) {
    && NoneTwice(nodes) && SetOf(nodes) == SetOf(r.base) + added
    && (forall n :: n in added ==> !n.BaseNode?)
    && |nodes| == |r.base| + |added|
  }

  ghost predicate EdgesHold(edges: seq<Edge>, r: Request, added: set<Edge>) {
    && |r.baseEdges| <= |edges| && edges[..|r.baseEdges|] == r.baseEdges
    && NoneTwice(edges[|r.baseEdges|..]) && SetOf(edges[|r.baseEdges|..]) == added
    && |edges| == |r.baseEdges| + |added|
  }

  lemma NodesGrow(nodes: seq<NodeId>, r: Request, added: set<NodeId>, id: NodeId)
    requires NodesHold(nodes, r, added) && id !in nodes && !id.BaseNode?
    ensures NodesHold(nodes + [id], r, added + {id})
  {
    assert SetOf(nodes + [id]) == SetOf(nodes) + {id};
    assert id !in added by { assert id !in SetOf(nodes); }
  }

  lemma EdgesGrow(edges: seq<Edge>, r: Request, added: set<Edge>, e: Edge)
    requires EdgesHold(edges, r, added) && e !in added
    ensures EdgesHold(edges + [e], r, added + {e})
  {
    var tail := edges[|r.baseEdges|..];
    assert (edges + [e])[|r.baseEdges|..] == tail + [e];
    assert SetOf(tail + [e]) == SetOf(tail) + {e};
    assert e !in tail by { assert e !in SetOf(tail); }
  }

  // ----- One step of the build -----

  /** Everything that a build may add. */
  datatype Goal = Goal(nodes: set<NodeId>, edges: set<Edge>)

  ghost predicate Fits(r: Request, g: Goal) {
    |r.base| + |g.nodes| <= 128 && |r.baseEdges| + |g.edges| <= 512
  }

  /** Lists, fields and limits agree on what has been added. */
  ghost predicate BuiltOf(list: seq<NodeId>, links: seq<Edge>, fields: map<NodeId, Fields>, r: Request,
                          nodes: set<NodeId>, edges: set<Edge>, g: Goal)
  {
    && NodesHold(list, r, nodes) && EdgesHold(links, r, edges) && nodes <= g.nodes && edges <= g.edges
    && fields.Keys == SetOf(list) && |list| <= MAX_NODES && |links| <= MAX_EDGES
  }

  ghost predicate Built(d: Diagram, r: Request, nodes: set<NodeId>, edges: set<Edge>, g: Goal)
    reads d
  {
    BuiltOf(d.nodes, d.edges, d.fields, r, nodes, edges, g)
  }

  ghost predicate Kept(before: map<NodeId, Fields>, after: map<NodeId, Fields>) {
    forall k :: k in before ==> k in after && after[k] == before[k]
  }

  lemma InLists(list: seq<NodeId>, r: Request, nodes: set<NodeId>)
    requires BaseOk(r) && NodesHold(list, r, nodes)
    ensures Run(r) in list && forall n: NodeId :: !n.BaseNode? ==> (n in list <==> n in nodes)
  {
    assert Run(r) in SetOf(r.base);
    assert forall n: NodeId :: n in list <==> n in SetOf(list);
  }

  method HasNode(d: Diagram, r: Request, id: NodeId, ghost nodes: set<NodeId>, ghost edges: set<Edge>, ghost g: Goal)
    returns (found: bool)
    requires BaseOk(r) && Built(d, r, nodes, edges, g) && !id.BaseNode?
    ensures found <==> id in nodes
  {
    InLists(d.nodes, r, nodes);
    var i := d.NodeIndex(id);
    found := i < |d.nodes|;
  }

  lemma FieldsGrow(list: seq<NodeId>, fields: map<NodeId, Fields>, id: NodeId, f: Fields)
    requires fields.Keys == SetOf(list) && id !in list
    ensures fields[id := f].Keys == SetOf(list + [id]) && Kept(fields, fields[id := f])
  {
    assert id !in fields.Keys && SetOf(list + [id]) == SetOf(list) + {id};
  }

  lemma NodeLands(list: seq<NodeId>, links: seq<Edge>, fields: map<NodeId, Fields>, r: Request,
                  nodes: set<NodeId>, edges: set<Edge>, g: Goal, id: NodeId, f: Fields)
    requires BaseOk(r) && BuiltOf(list, links, fields, r, nodes, edges, g)
    requires id in g.nodes && id !in nodes && !id.BaseNode?
    ensures id !in list && Kept(fields, fields[id := f])
    ensures |list| < MAX_NODES ==> BuiltOf(list + [id], links, fields[id := f], r, nodes + {id}, edges, g)
    ensures |list| >= MAX_NODES ==> !Fits(r, g)
  {
    InLists(list, r, nodes);
    hide EdgesHold, NodesHold, BaseOk, Kept, SetOf, Built;
    FieldsGrow(list, fields, id, f);
    SmallerCount(nodes, g.nodes, id);
    if |list| < MAX_NODES {
      NodeAdded(list, links, fields, r, nodes, edges, g, id, f);
    } else {
      FullNodes(list, r, nodes, g);
    }
  }

  lemma FullNodes(list: seq<NodeId>, r: Request, nodes: set<NodeId>, g: Goal)
    requires NodesHold(list, r, nodes) && |list| >= MAX_NODES && |nodes| < |g.nodes|
    ensures !Fits(r, g)
  {
  }

  lemma NodeAdded(list: seq<NodeId>, links: seq<Edge>, fields: map<NodeId, Fields>, r: Request,
                  nodes: set<NodeId>, edges: set<Edge>, g: Goal, id: NodeId, f: Fields)
    requires BuiltOf(list, links, fields, r, nodes, edges, g) && |list| < MAX_NODES
    requires id in g.nodes && id !in list && !id.BaseNode?
    ensures BuiltOf(list + [id], links, fields[id := f], r, nodes + {id}, edges, g)
  {
    hide EdgesHold, NodesHold, SetOf, Kept;
    NodesGrow(list, r, nodes, id);
    FieldsGrow(list, fields, id, f);
  }

  lemma EdgeLands(list: seq<NodeId>, links: seq<Edge>, fields: map<NodeId, Fields>, r: Request,
                  nodes: set<NodeId>, edges: set<Edge>, g: Goal, e: Edge)
    requires BaseOk(r) && BuiltOf(list, links, fields, r, nodes, edges, g) && e in g.edges && e !in edges
    requires (e.from == Run(r) || (e.from in nodes && !e.from.BaseNode?)) && e.to in nodes && !e.to.BaseNode?
    ensures e.from in list && e.to in list && |list| <= MAX_NODES
    ensures |links| < MAX_EDGES ==> BuiltOf(list, links + [e], fields, r, nodes, edges + {e}, g)
    ensures |links| >= MAX_EDGES ==> !Fits(r, g)
  {
    InLists(list, r, nodes);
    hide EdgesHold, NodesHold, BaseOk, SetOf, Built;
    SmallerCount(edges, g.edges, e);
    if |links| < MAX_EDGES {
      EdgeAdded(list, links, fields, r, nodes, edges, g, e);
    } else {
      FullEdges(links, r, edges, g);
    }
  }

  lemma FullEdges(links: seq<Edge>, r: Request, edges: set<Edge>, g: Goal)
    requires EdgesHold(links, r, edges) && |links| >= MAX_EDGES && |edges| < |g.edges|
    ensures !Fits(r, g)
  {
  }

  lemma EdgeAdded(list: seq<NodeId>, links: seq<Edge>, fields: map<NodeId, Fields>, r: Request,
                  nodes: set<NodeId>, edges: set<Edge>, g: Goal, e: Edge)
    requires BuiltOf(list, links, fields, r, nodes, edges, g) && |links| < MAX_EDGES && e in g.edges && e !in edges
    ensures BuiltOf(list, links + [e], fields, r, nodes, edges + {e}, g)
  {
    hide EdgesHold, NodesHold, SetOf;
    EdgesGrow(links, r, edges, e);
  }

  /** One new node; it can only be refused when the goal does not fit. */
  method PutNode(d: Diagram, r: Request, id: NodeId, f: Fields,
                 ghost nodes: set<NodeId>, ghost edges: set<Edge>, ghost g: Goal)
    returns (rc: Rc)
    requires BaseOk(r) && Built(d, r, nodes, edges, g) && id in g.nodes && id !in nodes && !id.BaseNode?
    modifies d
    ensures rc == OK ==>
      Built(d, r, nodes + {id}, edges, g) && Kept(old(d.fields), d.fields) && id in d.fields && d.fields[id] == f
    ensures rc != OK ==> rc == ENOSPC && !Fits(r, g)
  {
    hide BuiltOf, BaseOk, Kept, Fits;
    NodeLands(d.nodes, d.edges, d.fields, r, nodes, edges, g, id, f);
    rc := d.AddNode(id, f);
  }

  /** One new edge between nodes that are there. */
  method PutEdge(d: Diagram, r: Request, e: Edge, ghost nodes: set<NodeId>, ghost edges: set<Edge>, ghost g: Goal)
    returns (rc: Rc)
    requires BaseOk(r) && Built(d, r, nodes, edges, g) && e in g.edges && e !in edges
    requires (e.from == Run(r) || (e.from in nodes && !e.from.BaseNode?)) && e.to in nodes && !e.to.BaseNode?
    modifies d
    ensures d.fields == old(d.fields)
    ensures rc == OK ==> Built(d, r, nodes, edges + {e}, g)
    ensures rc != OK ==> rc == ENOSPC && !Fits(r, g)
  {
    hide BuiltOf, Fits;
    EdgeLands(d.nodes, d.edges, d.fields, r, nodes, edges, g, e);
    rc := d.AddEdge(e);
  }

  method SetFields(d: Diagram, r: Request, id: NodeId, f: Fields,
                   ghost nodes: set<NodeId>, ghost edges: set<Edge>, ghost g: Goal)
    requires Built(d, r, nodes, edges, g) && id in d.fields
    modifies d`fields
    ensures Built(d, r, nodes, edges, g) && d.fields == old(d.fields)[id := f]
  {
    d.fields := d.fields[id := f];
  }

  // ----- Contributions add up -----

  lemma IdsAdd(r: Request, s: set<string>, id: string)
    ensures NewIds(r, s + {id}) == NewIds(r, s) + IdsOf(r, id)
  {
    hide IdsOf;
  }

  lemma EdgesAdd(r: Request, run: NodeId, s: set<string>, id: string)
    ensures NewEdges(r, run, s + {id}) == NewEdges(r, run, s) + EdgesOf(r, run, id)
  {
    hide EdgesOf;
  }

  lemma Monotone(r: Request, run: NodeId, s: set<string>, t: set<string>)
    requires s <= t
    ensures NewIds(r, s) <= NewIds(r, t) && NewEdges(r, run, s) <= NewEdges(r, run, t)
  {
    hide IdsOf, EdgesOf;
  }

  /** What the new edges of a node tell about the journals behind them. */
  lemma NewMeans(r: Request, run: NodeId, s: set<string>)
    requires run.BaseNode?
    ensures forall n :: n in NewIds(r, s) ==> !n.BaseNode?
    ensures forall id :: JournalNode(id) in NewIds(r, s) ==> id in s
    ensures forall e :: e in NewEdges(r, run, s) && e.to.JournalNode? ==> e.to.id in s
    ensures forall e :: e in NewEdges(r, run, s) && e.to.EventNode? ==> e.to in NewIds(r, s)
    ensures forall e :: e in NewEdges(r, run, s) && e.to.StepNode? ==> e.to in NewIds(r, s)
  {
    hide IdsOf, EdgesOf;
    forall n | n in NewIds(r, s)
      ensures !n.BaseNode? && (n.JournalNode? ==> n.id in s)
    {
      var id :| id in s && n in IdsOf(r, id);
      IdsMean(r, id);
    }
    forall e | e in NewEdges(r, run, s)
      ensures e.to.JournalNode? ==> e.to.id in s
      ensures e.to.EventNode? || e.to.StepNode? ==> e.to in NewIds(r, s)
    {
      var id :| id in s && e in EdgesOf(r, run, id);
      EdgesMean(r, run, id);
      assert IdsOf(r, id) <= NewIds(r, s);
    }
  }

  lemma IdsMean(r: Request, id: string)
    ensures forall n :: n in IdsOf(r, id) ==> !n.BaseNode? && (n.JournalNode? ==> n.id == id)
  {
    hide Origin;
  }

  lemma EdgesMean(r: Request, run: NodeId, id: string)
    ensures forall e :: e in EdgesOf(r, run, id) ==> e.to in IdsOf(r, id) && (e.to.JournalNode? ==> e.to.id == id)
  {
    hide Origin;
  }

  /** An event node that is already there came with its step, its edges and its fields. */
  lemma EventKnown(r: Request, run: NodeId, s: set<string>, id: string, fields: map<NodeId, Fields>)
    requires forall k :: k in s ==> Readable(r, k) && ContentOf(r, k, fields)
    requires Readable(r, id) && Origin(r, id).Matched? && EventNode(r.journal(id).turn) in NewIds(r, s)
    ensures var turn, o := r.journal(id).turn, Origin(r, id);
      && StepIds(o.step) <= NewIds(r, s)
      && {Edge(run, EventNode(turn), SnapshotContains)} + StepEdges(run, turn, o.step) <= NewEdges(r, run, s)
      && EventNode(turn) in fields && fields[EventNode(turn)] == EventFields(o.key, o.step)
      && (o.step.PreparedFor? ==>
            StepNode(o.step.plan, o.step.step) in fields && fields[StepNode(o.step.plan, o.step.step)] == StepFields)
  {
    hide Resolve;
    var turn := r.journal(id).turn;
    var k :| k in s && EventNode(turn) in IdsOf(r, k);
    assert Readable(r, k) && r.journal(k).turn == turn && Origin(r, k).Matched?;
    SameTurnSameEvent(r.snapshot, turn, r.journal(id).callId, r.journal(id).tool, r.journal(k).callId,
                      r.journal(k).tool, r.steps, r.sizeMax);
    assert IdsOf(r, k) <= NewIds(r, s) && EdgesOf(r, run, k) <= NewEdges(r, run, s);
  }

  /** A step node that is already there came with its edge from the run. */
  lemma StepKnown(r: Request, run: NodeId, s: set<string>, plan: nat, step: nat, fields: map<NodeId, Fields>)
    requires forall k :: k in s ==> Readable(r, k) && ContentOf(r, k, fields)
    requires StepNode(plan, step) in NewIds(r, s)
    ensures Edge(run, StepNode(plan, step), SnapshotContains) in NewEdges(r, run, s)
    ensures StepNode(plan, step) in fields && fields[StepNode(plan, step)] == StepFields
  {
    hide Resolve;
    var k :| k in s && StepNode(plan, step) in IdsOf(r, k);
    assert Readable(r, k) && Origin(r, k).Matched? && Origin(r, k).step == PreparedFor(plan, step);
    assert EdgesOf(r, run, k) <= NewEdges(r, run, s);
  }

  // ----- Adding one journal -----

  /** The event's workflow step: reuse its node or add it, then link it to the event. */
  method AddStep(d: Diagram, r: Request, turn: string, step: StepPart,
                 ghost nodes: set<NodeId>, ghost edges: set<Edge>, ghost g: Goal)
    returns (rc: Rc)
    requires BaseOk(r) && step.PreparedFor? && Built(d, r, nodes, edges, g)
    requires StepIds(step) <= g.nodes && StepEdges(Run(r), turn, step) <= g.edges && EventNode(turn) in nodes
    requires var n := StepNode(step.plan, step.step);
      && (n in nodes <==> Edge(Run(r), n, SnapshotContains) in edges)
      && (n in nodes ==> n in d.fields && d.fields[n] == StepFields)
      && Edge(n, EventNode(turn), PreparedForStep) !in edges
    modifies d
    ensures rc == OK ==>
      && Built(d, r, nodes + StepIds(step), edges + StepEdges(Run(r), turn, step), g) && Kept(old(d.fields), d.fields)
      && StepNode(step.plan, step.step) in d.fields && d.fields[StepNode(step.plan, step.step)] == StepFields
    ensures rc != OK ==> rc == ENOSPC && !Fits(r, g)
  {
    hide Built, Fits;
    var n := StepNode(step.plan, step.step);
    var contains, prepared := Edge(Run(r), n, SnapshotContains), Edge(n, EventNode(turn), PreparedForStep);
    var found := HasNode(d, r, n, nodes, edges, g);
    ghost var now := edges;
    if !found {
      rc := PutNode(d, r, n, StepFields, nodes, edges, g);
      if rc != OK { return; }
      rc := PutEdge(d, r, contains, nodes + {n}, edges, g);
      if rc != OK { return; }
      now := edges + {contains};
    }
    assert nodes + StepIds(step) == if found then nodes else nodes + {n};
    rc := PutEdge(d, r, prepared, nodes + StepIds(step), now, g);
    assert now + {prepared} == edges + StepEdges(Run(r), turn, step);
  }

  /** The event that a journal came from, with its edge from the run and its step. */
  method AddEvent(d: Diagram, r: Request, turn: string, key: Key, step: StepPart,
                  ghost nodes: set<NodeId>, ghost edges: set<Edge>, ghost g: Goal)
    returns (rc: Rc)
    requires BaseOk(r) && Built(d, r, nodes, edges, g) && EventNode(turn) !in nodes && EventNode(turn) in g.nodes
    requires StepIds(step) <= g.nodes && StepEdges(Run(r), turn, step) <= g.edges
    requires Edge(Run(r), EventNode(turn), SnapshotContains) in g.edges
    requires forall e :: e in edges && e.to == EventNode(turn) ==> false
    requires step.PreparedFor? ==>
      var n := StepNode(step.plan, step.step);
      && (n in nodes <==> Edge(Run(r), n, SnapshotContains) in edges)
      && (n in nodes ==> n in d.fields && d.fields[n] == StepFields)
    modifies d
    ensures rc == OK ==>
      && Built(d, r, nodes + {EventNode(turn)} + StepIds(step),
               edges + ({Edge(Run(r), EventNode(turn), SnapshotContains)} + StepEdges(Run(r), turn, step)), g)
      && Kept(old(d.fields), d.fields)
      && EventNode(turn) in d.fields && d.fields[EventNode(turn)] == EventFields(key, step)
      && (step.PreparedFor? ==>
            StepNode(step.plan, step.step) in d.fields && d.fields[StepNode(step.plan, step.step)] == StepFields)
    ensures rc != OK ==> rc == ENOSPC && !Fits(r, g)
  {
    hide Built, Fits;
    var contains := Edge(Run(r), EventNode(turn), SnapshotContains);
    assert EventNode(turn) !in d.fields by { FieldsAre(d, r, nodes, edges, g); }
    rc := PutNode(d, r, EventNode(turn), EventFields(key, StepsOff), nodes, edges, g);
    if rc != OK { return; }
    rc := PutEdge(d, r, contains, nodes + {EventNode(turn)}, edges, g);
    if rc != OK { return; }
    if step.PreparedFor? {
      rc := AddStep(d, r, turn, step, nodes + {EventNode(turn)}, edges + {contains}, g);
      if rc != OK { return; }
    }
    assert !step.PreparedFor? ==> nodes + {EventNode(turn)} + StepIds(step) == nodes + {EventNode(turn)};
    assert edges + ({contains} + StepEdges(Run(r), turn, step)) == edges + {contains} + StepEdges(Run(r), turn, step);
    assert !step.PreparedFor? ==> edges + {contains} + StepEdges(Run(r), turn, step) == edges + {contains};
    SetFields(d, r, EventNode(turn), EventFields(key, step), nodes + {EventNode(turn)} + StepIds(step),
              edges + ({contains} + StepEdges(Run(r), turn, step)), g);
  }

  lemma FieldsAre(d: Diagram, r: Request, nodes: set<NodeId>, edges: set<Edge>, g: Goal)
    requires BaseOk(r) && Built(d, r, nodes, edges, g)
    ensures forall n: NodeId :: !n.BaseNode? ==> (n in d.fields <==> n in nodes)
  {
    InLists(d.nodes, r, nodes);
    assert forall n: NodeId :: n in d.nodes <==> n in SetOf(d.nodes);
  }

  ghost function GoalOf(r: Request, s: set<string>): Goal
    requires |r.base| > 0
  {
    Goal(NewIds(r, s), NewEdges(r, Run(r), s))
  }

  /** After these journals: exactly their nodes and edges, and their contents. */
  ghost predicate Progress(d: Diagram, r: Request, s: set<string>)
    requires |r.base| > 0
    reads d
  {
    && Built(d, r, NewIds(r, s), NewEdges(r, Run(r), s), GoalOf(r, s)) && Kept(r.baseFields, d.fields)
    && forall id :: id in s ==> Readable(r, id) && ContentOf(r, id, d.fields)
  }

  lemma ContentKept(r: Request, k: string, before: map<NodeId, Fields>, after: map<NodeId, Fields>)
    requires Readable(r, k) && ContentOf(r, k, before) && Kept(before, after)
    ensures ContentOf(r, k, after)
  {
    hide Origin;
  }

  /** What a matched journal shares with every other journal of its turn. */
  ghost function SharedIds(turn: string, step: StepPart): set<NodeId> {
    {EventNode(turn)} + StepIds(step)
  }

  ghost function SharedEdges(run: NodeId, turn: string, step: StepPart): set<Edge> {
    {Edge(run, EventNode(turn), SnapshotContains)} + StepEdges(run, turn, step)
  }

  /** What a matched journal adds beyond its own node and its edge from the run. */
  ghost function MatchedIds(r: Request, id: string): set<NodeId> {
    var j, o := r.journal(id), Origin(r, id);
    if j.Journal? && o.Matched? then SharedIds(j.turn, o.step) else {}
  }

  ghost function MatchedEdges(r: Request, id: string): set<Edge>
    requires |r.base| > 0
  {
    var j, o := r.journal(id), Origin(r, id);
    if j.Journal? && o.Matched? then
      SharedEdges(Run(r), j.turn, o.step) + {Edge(EventNode(j.turn), JournalNode(id), SameCallIdentity(o.call))}
    else {}
  }

  ghost predicate SharedContent(turn: string, key: Key, step: StepPart, fields: map<NodeId, Fields>) {
    && EventNode(turn) in fields && fields[EventNode(turn)] == EventFields(key, step)
    && (step.PreparedFor? ==>
          StepNode(step.plan, step.step) in fields && fields[StepNode(step.plan, step.step)] == StepFields)
  }

  /** The parts that are there already are complete. */
  ghost predicate SharedReady(run: NodeId, turn: string, key: Key, step: StepPart, nodes: set<NodeId>, edges: set<Edge>,
                              fields: map<NodeId, Fields>)
  {
    if EventNode(turn) in nodes then
      SharedIds(turn, step) <= nodes && SharedEdges(run, turn, step) <= edges && SharedContent(turn, key, step, fields)
    else
      && (forall e :: e in edges ==> e.to != EventNode(turn))
      && (step.PreparedFor? ==>
            var n := StepNode(step.plan, step.step);
            && (n in nodes <==> Edge(run, n, SnapshotContains) in edges)
            && (n in nodes ==> n in fields && fields[n] == StepFields))
  }

  lemma SharedIsReady(r: Request, s: set<string>, id: string, before: map<NodeId, Fields>, fields: map<NodeId, Fields>)
    requires BaseOk(r) && Readable(r, id) && Origin(r, id).Matched?
    requires (forall k :: k in s ==> Readable(r, k) && ContentOf(r, k, before)) && Kept(before, fields)
    ensures var o := Origin(r, id);
      SharedReady(Run(r), r.journal(id).turn, o.key, o.step, NewIds(r, s) + {JournalNode(id)},
                  NewEdges(r, Run(r), s) + {Edge(Run(r), JournalNode(id), SameRun)}, fields)
  {
    RunIsBase(r);
    hide Origin, Resolve, BaseOk, NewIds, NewEdges, ContentOf;
    var turn, o := r.journal(id).turn, Origin(r, id);
    if EventNode(turn) in NewIds(r, s) {
      EventKnown(r, Run(r), s, id, before);
    } else {
      StepIsReady(r, s, turn, o.key, o.step, before, fields);
    }
    JournalApart(r, id, turn, o.key, o.step, NewIds(r, s), NewEdges(r, Run(r), s), fields);
  }

  lemma StepIsReady(r: Request, s: set<string>, turn: string, key: Key, step: StepPart, before: map<NodeId, Fields>,
                    fields: map<NodeId, Fields>)
    requires |r.base| > 0 && Run(r).BaseNode? && EventNode(turn) !in NewIds(r, s) && Kept(before, fields)
    requires forall k :: k in s ==> Readable(r, k) && ContentOf(r, k, before)
    ensures SharedReady(Run(r), turn, key, step, NewIds(r, s), NewEdges(r, Run(r), s), fields)
  {
    hide Origin, Resolve, NewIds, NewEdges, ContentOf;
    NewMeans(r, Run(r), s);
    if step.PreparedFor? && StepNode(step.plan, step.step) in NewIds(r, s) {
      StepKnown(r, Run(r), s, step.plan, step.step, before);
    }
  }

  /** The journal's own node and edge make no difference to the shared parts. */
  lemma JournalApart(r: Request, id: string, turn: string, key: Key, step: StepPart, nodes: set<NodeId>,
                     edges: set<Edge>, fields: map<NodeId, Fields>)
    requires |r.base| > 0 && SharedReady(Run(r), turn, key, step, nodes, edges, fields)
    ensures SharedReady(Run(r), turn, key, step, nodes + {JournalNode(id)},
                        edges + {Edge(Run(r), JournalNode(id), SameRun)}, fields)
  {
  }

  /** The shared parts, once. */
  method AddShared(d: Diagram, r: Request, turn: string, key: Key, step: StepPart,
                   ghost nodes: set<NodeId>, ghost edges: set<Edge>, ghost g: Goal)
    returns (rc: Rc)
    requires BaseOk(r) && Built(d, r, nodes, edges, g) && SharedReady(Run(r), turn, key, step, nodes, edges, d.fields)
    requires SharedIds(turn, step) <= g.nodes && SharedEdges(Run(r), turn, step) <= g.edges
    modifies d
    ensures rc == OK ==>
      && Built(d, r, nodes + SharedIds(turn, step), edges + SharedEdges(Run(r), turn, step), g)
      && Kept(old(d.fields), d.fields) && SharedContent(turn, key, step, d.fields)
    ensures rc != OK ==> rc == ENOSPC && !Fits(r, g)
  {
    hide Built, Fits, StepIds, StepEdges;
    var found := HasNode(d, r, EventNode(turn), nodes, edges, g);
    if found {
      assert nodes + SharedIds(turn, step) == nodes && edges + SharedEdges(Run(r), turn, step) == edges;
      return OK;
    }
    rc := AddEvent(d, r, turn, key, step, nodes, edges, g);
    assert nodes + {EventNode(turn)} + StepIds(step) == nodes + SharedIds(turn, step);
  }

  /** The origin of a journal whose node and edge are already there. */
  method AddOrigin(d: Diagram, r: Request, id: string, o: Resolution, ghost s: set<string>,
                   ghost before: map<NodeId, Fields>, ghost g: Goal)
    returns (rc: Rc)
    requires BaseOk(r) && Readable(r, id) && o == Origin(r, id) && o.Matched? && id !in s && g == GoalOf(r, s + {id})
    requires Built(d, r, NewIds(r, s) + {JournalNode(id)},
                   NewEdges(r, Run(r), s) + {Edge(Run(r), JournalNode(id), SameRun)}, g)
    requires forall k :: k in s ==> Readable(r, k) && ContentOf(r, k, before)
    requires Kept(before, d.fields) && JournalNode(id) in d.fields
    modifies d
    ensures rc == OK ==>
      && Built(d, r, NewIds(r, s) + {JournalNode(id)} + MatchedIds(r, id),
               NewEdges(r, Run(r), s) + {Edge(Run(r), JournalNode(id), SameRun)} + MatchedEdges(r, id), g)
      && Kept(old(d.fields), d.fields) && SharedContent(r.journal(id).turn, o.key, o.step, d.fields)
    ensures rc != OK ==> rc == ENOSPC && !Fits(r, g)
  {
    hide Origin, BuiltOf, BaseOk, Fits, NewIds, NewEdges, ContentOf, SharedIds, SharedEdges, SharedContent,
         SharedReady, Kept;
    var turn := r.journal(id).turn;
    var call := Edge(EventNode(turn), JournalNode(id), SameCallIdentity(o.call));
    RunIsBase(r);
    ghost var nodes := NewIds(r, s) + {JournalNode(id)};
    ghost var edges := NewEdges(r, Run(r), s) + {Edge(Run(r), JournalNode(id), SameRun)};
    ghost var shared := SharedEdges(Run(r), turn, o.step);
    Contributions(r, s, id);
    SharedIsReady(r, s, id, before, d.fields);
    CallIsNew(r, s, id);
    rc := AddShared(d, r, turn, o.key, o.step, nodes, edges, g);
    if rc != OK { return; }
    assert EventNode(turn) in SharedIds(turn, o.step) by { EventShared(turn, o.step); }
    rc := PutEdge(d, r, call, nodes + MatchedIds(r, id), edges + shared, g);
    assert edges + shared + {call} == edges + MatchedEdges(r, id);
  }

  lemma EventShared(turn: string, step: StepPart)
    ensures EventNode(turn) in SharedIds(turn, step)
  {
  }

  /** The edge from the event to this journal is not there yet. */
  lemma CallIsNew(r: Request, s: set<string>, id: string)
    requires BaseOk(r) && id !in s && Origin(r, id).Matched? && r.journal(id).Journal?
    ensures |r.base| > 0
    ensures var turn, o := r.journal(id).turn, Origin(r, id);
      Edge(EventNode(turn), JournalNode(id), SameCallIdentity(o.call))
        !in NewEdges(r, Run(r), s) + {Edge(Run(r), JournalNode(id), SameRun)} + SharedEdges(Run(r), turn, o.step)
  {
    RunIsBase(r);
    hide Origin, BaseOk, NewIds, NewEdges;
    NewMeans(r, Run(r), s);
  }

  lemma BuiltTowards(d: Diagram, r: Request, nodes: set<NodeId>, edges: set<Edge>, g: Goal, g': Goal)
    requires Built(d, r, nodes, edges, g) && nodes <= g'.nodes && edges <= g'.edges
    ensures Built(d, r, nodes, edges, g')
  {
  }

  /** The nodes and edges of one more journal, as a whole. */
  lemma Contributions(r: Request, s: set<string>, id: string)
    requires |r.base| > 0 && r.journal(id).Journal?
    ensures NewIds(r, s + {id}) == NewIds(r, s) + {JournalNode(id)} + MatchedIds(r, id)
    ensures NewEdges(r, Run(r), s + {id})
         == NewEdges(r, Run(r), s) + {Edge(Run(r), JournalNode(id), SameRun)} + MatchedEdges(r, id)
  {
    hide Origin, NewIds, NewEdges, StepIds, StepEdges;
    IdsAdd(r, s, id);
    EdgesAdd(r, Run(r), s, id);
  }

  /** The journal's own node and its one edge from the run. */
  method AddRecord(d: Diagram, r: Request, id: string, content: string, ghost s: set<string>, ghost g: Goal)
    returns (rc: Rc)
    requires BaseOk(r) && Progress(d, r, s) && id !in s && r.journal(id).Journal? && g == GoalOf(r, s + {id})
    modifies d
    ensures rc == OK ==>
      && Built(d, r, NewIds(r, s) + {JournalNode(id)},
               NewEdges(r, Run(r), s) + {Edge(Run(r), JournalNode(id), SameRun)}, g)
      && Kept(old(d.fields), d.fields) && JournalNode(id) !in old(d.fields)
      && JournalNode(id) in d.fields && d.fields[JournalNode(id)] == JournalFields(content, NoStatus)
    ensures rc != OK ==> rc == ENOSPC && !Fits(r, g)
  {
    hide Origin, BuiltOf, Fits, NewIds, NewEdges, MatchedIds, MatchedEdges, ContentOf;
    ghost var nodes, edges := NewIds(r, s), NewEdges(r, Run(r), s);
    Contributions(r, s, id);
    NewMeans(r, Run(r), s);
    BuiltTowards(d, r, nodes, edges, GoalOf(r, s), g);
    FieldsAre(d, r, nodes, edges, g);
    rc := PutNode(d, r, JournalNode(id), JournalFields(content, NoStatus), nodes, edges, g);
    if rc != OK { return; }
    rc := PutEdge(d, r, Edge(Run(r), JournalNode(id), SameRun), nodes + {JournalNode(id)}, edges, g);
  }

  /** The origin parts of a resolved journal, or none. */
  method AddParts(d: Diagram, r: Request, id: string, o: Resolution, ghost s: set<string>,
                  ghost before: map<NodeId, Fields>, ghost g: Goal)
    returns (rc: Rc)
    requires BaseOk(r) && Readable(r, id) && o == Origin(r, id) && id !in s && g == GoalOf(r, s + {id})
    requires Built(d, r, NewIds(r, s) + {JournalNode(id)},
                   NewEdges(r, Run(r), s) + {Edge(Run(r), JournalNode(id), SameRun)}, g)
    requires forall k :: k in s ==> Readable(r, k) && ContentOf(r, k, before)
    requires Kept(before, d.fields) && JournalNode(id) in d.fields
    modifies d
    ensures rc == OK ==>
      Built(d, r, g.nodes, g.edges, g) && Kept(old(d.fields), d.fields) && OriginContent(r, id, o, d.fields)
    ensures rc != OK ==> rc == ENOSPC && !Fits(r, g)
  {
    hide Origin, BuiltOf, Fits, NewIds, NewEdges, MatchedIds, MatchedEdges, ContentOf;
    Contributions(r, s, id);
    if o.Matched? {
      rc := AddOrigin(d, r, id, o, s, before, g);
    } else {
      NothingMatched(r, id);
      assert g.nodes == NewIds(r, s) + {JournalNode(id)};
      assert g.edges == NewEdges(r, Run(r), s) + {Edge(Run(r), JournalNode(id), SameRun)};
      rc := OK;
    }
  }

  ghost predicate OriginContent(r: Request, id: string, o: Resolution, fields: map<NodeId, Fields>)
    requires r.journal(id).Journal?
  {
    o.Matched? ==> SharedContent(r.journal(id).turn, o.key, o.step, fields)
  }

  method OriginFor(r: Request, id: string) returns (o: Resolution)
    requires r.journal(id).Journal? && r.sizeMax >= 9
    ensures o == Origin(r, id)
  {
    hide Resolve;
    var j := r.journal(id);
    o := NoOrigin(NoStatus);
    if r.origins { o := ResolveOrigin(r.snapshot, j.turn, j.callId, j.tool, r.steps, r.sizeMax); }
  }

  lemma StatusOff(r: Request, id: string)
    requires Readable(r, id) && !r.origins
    ensures StatusFrom(Origin(r, id)) == NoStatus
  {
  }

  /** The journal's origin status, last. */
  method SetStatus(d: Diagram, r: Request, id: string, o: Resolution, ghost s: set<string>,
                   ghost before: map<NodeId, Fields>, ghost g: Goal)
    requires BaseOk(r) && Readable(r, id) && o == Origin(r, id) && id !in s && g == GoalOf(r, s + {id})
    requires Built(d, r, g.nodes, g.edges, g) && OriginContent(r, id, o, d.fields)
    requires forall k :: k in s ==> Readable(r, k) && ContentOf(r, k, before)
    requires Kept(r.baseFields, before) && Kept(before, d.fields)
    requires JournalNode(id) !in before && JournalNode(id) in d.fields
    requires d.fields[JournalNode(id)] == JournalFields(r.journal(id).content, NoStatus)
    modifies d
    ensures Progress(d, r, s + {id})
  {
    hide Origin, BuiltOf, BaseOk, NewIds, NewEdges, ContentOf, Kept, Progress, StatusFrom;
    if !r.origins { StatusOff(r, id); }
    var f := JournalFields(r.journal(id).content, StatusFrom(o));
    StatusKept(before, d.fields, id, f);
    if r.origins { SetFields(d, r, JournalNode(id), f, g.nodes, g.edges, g); }
    ContentNow(r, id, o, d.fields);
    Finish(d, r, id, s, before);
  }

  /** The error that a journal has in itself: of reading it, or of finding its origin. */
  function JournalCode(r: Request, id: string): Rc {
    match Origin(r, id) case ResolutionError(rc) => rc case _ => OK
  }

  lemma JournalCodes(r: Request, id: string)
    ensures r.journal(id).JournalError? ==> JournalCode(r, id) == r.journal(id).rc
    ensures Origin(r, id).ResolutionError? ==> JournalCode(r, id) == Origin(r, id).rc
  {
    hide Resolve;
  }

  method AddJournal(d: Diagram, r: Request, id: string, ghost s: set<string>) returns (rc: Rc)
    requires BaseOk(r) && Progress(d, r, s) && id !in s
    modifies d
    ensures rc == OK ==> Readable(r, id) && Progress(d, r, s + {id})
    ensures rc != OK ==>
      (rc == JournalCode(r, id) && !Readable(r, id)) || (rc == ENOSPC && !Fits(r, GoalOf(r, s + {id})))
  {
    SizeOf(r);
    JournalCodes(r, id);
    hide Origin, Built, BaseOk, Fits, GoalOf, NewIds, NewEdges, ContentOf, Kept, OriginContent, JournalCode;
    var j := r.journal(id);
    if j.JournalError? { return j.rc; }
    ghost var g, before := GoalOf(r, s + {id}), d.fields;
    rc := AddRecord(d, r, id, j.content, s, g);
    if rc != OK { return; }
    var o := OriginFor(r, id);
    if o.ResolutionError? { return o.rc; }
    ghost var added := d.fields;
    rc := AddParts(d, r, id, o, s, before, g);
    if rc != OK { return; }
    KeptTwice(before, added, d.fields, JournalNode(id));
    SetStatus(d, r, id, o, s, before, g);
  }

  lemma KeptTwice(a: map<NodeId, Fields>, b: map<NodeId, Fields>, c: map<NodeId, Fields>, n: NodeId)
    requires Kept(a, b) && Kept(b, c) && n in b
    ensures Kept(a, c) && n in c && c[n] == b[n]
  {
  }

  lemma SizeOf(r: Request)
    requires BaseOk(r)
    ensures r.sizeMax >= 9 && |r.base| > 0
  {
  }

  lemma StatusKept(before: map<NodeId, Fields>, after: map<NodeId, Fields>, id: string, f: Fields)
    requires Kept(before, after) && JournalNode(id) !in before
    ensures Kept(before, after[JournalNode(id) := f])
  {
  }

  lemma ContentNow(r: Request, id: string, o: Resolution, fields: map<NodeId, Fields>)
    requires Readable(r, id) && o == Origin(r, id)
    requires JournalNode(id) in fields && fields[JournalNode(id)] == JournalFields(r.journal(id).content, StatusFrom(o))
    requires OriginContent(r, id, o, fields)
    ensures ContentOf(r, id, fields)
  {
  }

  lemma NothingMatched(r: Request, id: string)
    requires |r.base| > 0 && r.journal(id).Journal? && !Origin(r, id).Matched?
    ensures MatchedIds(r, id) == {} && MatchedEdges(r, id) == {}
  {
  }

  lemma Finish(d: Diagram, r: Request, id: string, s: set<string>, before: map<NodeId, Fields>)
    requires BaseOk(r) && Readable(r, id) && id !in s
    requires Built(d, r, NewIds(r, s + {id}), NewEdges(r, Run(r), s + {id}), GoalOf(r, s + {id}))
    requires forall k :: k in s ==> Readable(r, k) && ContentOf(r, k, before)
    requires Kept(r.baseFields, before) && Kept(before, d.fields) && ContentOf(r, id, d.fields)
    ensures Progress(d, r, s + {id})
  {
    hide ContentOf, BuiltOf, NewIds, NewEdges, Readable;
    forall k | k in s + {id}
      ensures Readable(r, k) && ContentOf(r, k, d.fields)
    {
      if k != id { ContentKept(r, k, before, d.fields); }
    }
  }

  // ----- The export -----

  /** Which requests export, by what they ask for and not by its order. */
  ghost predicate Exportable(r: Request, ids: seq<string>) {
    && 1 <= |ids| <= 32 && |r.base| > 0 && NoneTwice(ids)
    && (forall id :: id in ids ==> Readable(r, id))
    && Fits(r, GoalOf(r, SetOf(ids)))
  }

  method CheckIds(ids: seq<string>) returns (ok: bool)
    ensures ok <==> 1 <= |ids| <= 32 && NoneTwice(ids)
  {
    if |ids| == 0 || |ids| > MAX_JOURNALS { return false; }
    for i := 0 to |ids|
      invariant NoneTwice(ids[..i])
    {
      for j := 0 to i
        invariant forall k :: 0 <= k < j ==> ids[k] != ids[i]
      {
        if ids[i] == ids[j] { return false; }
      }
    }
    assert ids[..|ids|] == ids;
    return true;
  }

  lemma {:induction false} JournalsCount(r: Request, s: set<string>)
    ensures |s| <= |NewIds(r, s)|
  {
    if s != {} {
      var id :| id in s;
      var rest := s - {id};
      JournalsCount(r, rest);
      NewMeans(r, BaseNode(""), rest);
      Monotone(r, BaseNode(""), rest, s);
      assert IdsOf(r, id) <= NewIds(r, s);
      SmallerCount(NewIds(r, rest), NewIds(r, s), JournalNode(id));
    }
  }

  lemma PartFits(r: Request, s: set<string>, t: set<string>)
    requires |r.base| > 0 && s <= t && Fits(r, GoalOf(r, t))
    ensures Fits(r, GoalOf(r, s))
  {
    Monotone(r, Run(r), s, t);
    SubsetCount(NewIds(r, s), NewIds(r, t));
    SubsetCount(NewEdges(r, Run(r), s), NewEdges(r, Run(r), t));
  }

  lemma WholeFits(d: Diagram, r: Request, s: set<string>)
    requires |r.base| > 0 && Progress(d, r, s)
    ensures Fits(r, GoalOf(r, s))
  {
  }

  lemma StartsEmpty(d: Diagram, r: Request)
    requires BaseOk(r) && d.nodes == r.base && d.edges == r.baseEdges && d.fields == r.baseFields
    ensures Progress(d, r, {})
  {
    assert NewIds(r, {}) == {} && NewEdges(r, Run(r), {}) == {};
    assert SetOf(r.base) + {} == SetOf(r.base);
    assert r.baseEdges[|r.baseEdges|..] == [];
  }

  /** The whole export. It succeeds exactly for the exportable requests, and then the diagram
      holds exactly the nodes, edges and fields that the selected journals call for. */
  method Export(r: Request, ids: seq<string>) returns (rc: Rc, d: Diagram)
    requires BaseOk(r)
    ensures fresh(d)
    ensures rc == OK <==> Exportable(r, ids)
    ensures rc == OK ==> Progress(d, r, SetOf(ids))
    ensures !(1 <= |ids| <= 32 && NoneTwice(ids)) ==> rc == EINVAL
    ensures 1 <= |ids| <= 32 && NoneTwice(ids) && rc != OK ==>
      || (rc == ENOSPC && !Fits(r, GoalOf(r, SetOf(ids))))
      || exists id :: id in ids && !Readable(r, id) && rc == JournalCode(r, id)
  {
    hide BaseOk, Fits, Progress, Readable, JournalCode;
    d := new Diagram(r);
    var ok := CheckIds(ids);
    if !ok { return EINVAL, d; }
    SizeOf(r);
    StartsEmpty(d, r);
    assert SetOf(ids[..0]) == {};
    if |ids| > MAX_NODES - |r.base| {
      TooMany(r, ids);
      return ENOSPC, d;
    }
    for i := 0 to |ids|
      invariant Progress(d, r, SetOf(ids[..i])) && fresh(d)
      invariant forall k :: 0 <= k < i ==> Readable(r, ids[k])
    {
      assert ids[i] !in ids[..i];
      assert SetOf(ids[..i + 1]) == SetOf(ids[..i]) + {ids[i]};
      rc := AddJournal(d, r, ids[i], SetOf(ids[..i]));
      if rc != OK {
        if Fits(r, GoalOf(r, SetOf(ids))) { PartFits(r, SetOf(ids[..i + 1]), SetOf(ids)); }
        return;
      }
    }
    assert ids[..|ids|] == ids;
    WholeFits(d, r, SetOf(ids));
    rc := OK;
  }

  lemma TooMany(r: Request, ids: seq<string>)
    requires |r.base| > 0 && NoneTwice(ids) && |ids| > MAX_NODES - |r.base|
    ensures !Fits(r, GoalOf(r, SetOf(ids)))
  {
    CountOf(ids);
    JournalsCount(r, SetOf(ids));
  }

  // ----- Order does not matter, and nothing is there twice -----

  lemma SameSelection(ids: seq<string>, other: seq<string>)
    requires multiset(ids) == multiset(other)
    ensures |ids| == |other| && SetOf(ids) == SetOf(other) && (NoneTwice(ids) <==> NoneTwice(other))
  {
    assert |multiset(ids)| == |ids| && |multiset(other)| == |other|;
    forall x
      ensures x in ids <==> x in other
    {
      assert x in ids <==> x in multiset(ids);
      assert x in other <==> x in multiset(other);
    }
    assert SetOf(ids) == SetOf(other);
    NoneTwiceByCount(ids);
    NoneTwiceByCount(other);
  }

  lemma NoneTwiceByCount(ids: seq<string>)
    ensures NoneTwice(ids) <==> |SetOf(ids)| == |ids|
  {
    if NoneTwice(ids) {
      CountOf(ids);
    } else {
      var i, j :| 0 <= i < j < |ids| && ids[i] == ids[j];
      var rest := ids[..j] + ids[j + 1..];
      assert SetOf(rest) == SetOf(ids) by {
        assert rest[i] == ids[j];
        forall x | x in ids
          ensures x in rest
        {
          var k :| 0 <= k < |ids| && ids[k] == x;
          assert k < j ==> rest[k] == x;
          assert k > j ==> rest[k - 1] == x;
        }
      }
      AtMost(rest);
    }
  }

  lemma {:induction false} AtMost(s: seq<string>)
    ensures |SetOf(s)| <= |s|
  {
    if s != [] {
      AtMost(s[..|s| - 1]);
      assert SetOf(s) == SetOf(s[..|s| - 1]) + {s[|s| - 1]};
    }
  }

  lemma SameContents(r: Request, s: set<string>, f: map<NodeId, Fields>, f': map<NodeId, Fields>)
    requires f.Keys == r.baseFields.Keys + NewIds(r, s) == f'.Keys && Kept(r.baseFields, f) && Kept(r.baseFields, f')
    requires forall id :: id in s ==> Readable(r, id) && ContentOf(r, id, f) && ContentOf(r, id, f')
    ensures f == f'
  {
  }

  lemma KeysOf(d: Diagram, r: Request, s: set<string>)
    requires BaseOk(r) && Progress(d, r, s)
    ensures d.fields.Keys == r.baseFields.Keys + NewIds(r, s)
  {
    hide NewIds, NewEdges, ContentOf, Readable, Kept;
  }

  /** The contents of two diagrams of the same journals agree. */
  lemma SameFields(d: Diagram, e: Diagram, r: Request, s: set<string>)
    requires BaseOk(r) && Progress(d, r, s) && Progress(e, r, s)
    ensures d.fields == e.fields
  {
    hide NewIds, NewEdges, ContentOf, Readable, Kept, Built, BaseOk;
    KeysOf(d, r, s);
    KeysOf(e, r, s);
    SameContents(r, s, d.fields, e.fields);
  }

  function Tail<T>(s: seq<T>, n: nat): seq<T> {
    if n <= |s| then s[n..] else []
  }

  /** Any permutation of the journals exports if one does, to the same nodes, edges and fields. */
  method ExportPermuted(r: Request, ids: seq<string>, other: seq<string>)
    returns (rc: Rc, d: Diagram, rc': Rc, d': Diagram)
    requires BaseOk(r) && multiset(ids) == multiset(other)
    ensures rc == OK <==> rc' == OK
    ensures rc == OK ==>
      && SetOf(d.nodes) == SetOf(d'.nodes) && |d.nodes| == |d'.nodes| && d.fields == d'.fields
      && |d.edges| == |d'.edges| && SetOf(Tail(d.edges, |r.baseEdges|)) == SetOf(Tail(d'.edges, |r.baseEdges|))
  {
    hide BaseOk, Readable, NewIds, NewEdges, Fits;
    rc, d := Export(r, ids);
    rc', d' := Export(r, other);
    SameSelection(ids, other);
    assert forall id :: id in ids <==> id in SetOf(ids);
    assert forall id :: id in other <==> id in SetOf(other);
    if rc == OK { SameFields(d, d', r, SetOf(ids)); }
  }

  ghost predicate ExactlyOnce(edges: seq<Edge>, relation: Relation, to: NodeId) {
    exists i :: 0 <= i < |edges| && edges[i].relation == relation && edges[i].to == to
      && forall j :: 0 <= j < |edges| && edges[j].relation == relation && edges[j].to == to ==> j == i
  }

  lemma EdgeOnce(d: Diagram, r: Request, s: set<string>, e: Edge)
    requires BaseOk(r) && Progress(d, r, s) && e in NewEdges(r, Run(r), s)
    requires forall f :: f in NewEdges(r, Run(r), s) && f.relation == e.relation && f.to == e.to ==> f == e
    requires !e.relation.BaseRelation?
    ensures ExactlyOnce(d.edges, e.relation, e.to)
  {
    hide NewEdges, NewIds, ContentOf, Readable;
    var b := |r.baseEdges|;
    var tail := d.edges[b..];
    assert e in SetOf(tail);
    var k :| 0 <= k < |tail| && tail[k] == e;
    assert d.edges[b + k] == e;
    assert forall j :: 0 <= j < b ==> d.edges[j] == d.edges[..b][j] && d.edges[j] in r.baseEdges;
    forall j | 0 <= j < |d.edges| && d.edges[j].relation == e.relation && d.edges[j].to == e.to
      ensures j == b + k
    {
      if j >= b { assert tail[j - b] == d.edges[j] && tail[j - b] in SetOf(tail); }
    }
  }

  /** Each selected journal has one node and one edge from the run; each event that a journal
      matched has one node and one snapshot edge, however many journals share it. */
  lemma SharedOnce(d: Diagram, r: Request, s: set<string>, id: string)
    requires BaseOk(r) && Progress(d, r, s) && id in s
    ensures NoneTwice(d.nodes) && JournalNode(id) in d.nodes && ExactlyOnce(d.edges, SameRun, JournalNode(id))
    ensures Origin(r, id).Matched? ==>
      EventNode(r.journal(id).turn) in d.nodes && ExactlyOnce(d.edges, SnapshotContains, EventNode(r.journal(id).turn))
  {
    hide ExactlyOnce, Origin, ContentOf;
    InLists(d.nodes, r, NewIds(r, s));
    assert IdsOf(r, id) <= NewIds(r, s) && EdgesOf(r, Run(r), id) <= NewEdges(r, Run(r), s);
    RelationEnds(r, s);
    EdgeOnce(d, r, s, Edge(Run(r), JournalNode(id), SameRun));
    if Origin(r, id).Matched? { EdgeOnce(d, r, s, Edge(Run(r), EventNode(r.journal(id).turn), SnapshotContains)); }
  }

  /** Both relations only ever start at the run. */
  lemma RelationEnds(r: Request, s: set<string>)
    requires |r.base| > 0
    ensures forall f :: f in NewEdges(r, Run(r), s) && (f.relation.SameRun? || f.relation.SnapshotContains?) ==>
      f.from == Run(r)
  {
    hide Origin, BaseOk;
    forall f | f in NewEdges(r, Run(r), s) && (f.relation.SameRun? || f.relation.SnapshotContains?)
      ensures f.from == Run(r)
    {
      var id :| id in s && f in EdgesOf(r, Run(r), id);
    }
  }

  // ----- What the diagram says about an origin -----

  ghost predicate Called(r: Request, id: string, key: Key, call: nat, step: StepPart)
    requires r.journal(id).Journal?
  {
    var j := r.journal(id);
    exists state: ObjectState :: CalledFrom(r.snapshot, j.turn, j.callId, j.tool, r.sizeMax, key, call, state)
                                 && StepMeaning(r.snapshot, key, state, r.steps, step)
  }

  /** The origin status of a journal's node, by what the snapshot holds. */
  ghost predicate StatusMeaning(r: Request, id: string, status: OriginStatus)
    requires r.journal(id).Journal?
  {
    var j := r.journal(id);
    && (status == NoStatus <==> !r.origins)
    && (r.origins ==>
          && (status == MatchedOrigin <==> exists key, call, step :: Called(r, id, key, call, step))
          && (status == UnresolvedIdentity <==> !HasPrefix(j.turn, "planner:") && !HasPrefix(j.turn, "executor:"))
          && (status == AbsentFromSnapshot <==>
                exists key :: j.turn == Print(key) && InRange(key, r.sizeMax) && NotCalled(r.snapshot, key, j.callId)))
  }

  lemma OriginStatusMeans(r: Request, id: string)
    requires r.journal(id).Journal? && Readable(r, id) && NulFree(r.journal(id).turn)
    ensures StatusMeaning(r, id, StatusFrom(Origin(r, id)))
    ensures r.origins ==>
      forall key, call, step :: Origin(r, id) == Matched(key, call, step) <==> Called(r, id, key, call, step)
  {
    hide Resolve, CalledFrom, StepMeaning, NotCalled, Print, InRange, HasPrefix;
    var j := r.journal(id);
    if r.origins {
      UnmatchedMeans(r.snapshot, j.turn, j.callId, j.tool, r.steps, r.sizeMax);
      forall key, call, step
        ensures Origin(r, id) == Matched(key, call, step) <==> Called(r, id, key, call, step)
      {
        MatchedMeans(r.snapshot, j.turn, j.callId, j.tool, r.steps, r.sizeMax, key, call, step);
      }
      ReadableOrigin(r, id);
    }
  }

  /** Every status but the three is an error, and then there is no diagram. */
  lemma ReadableOrigin(r: Request, id: string)
    requires Readable(r, id) && r.origins
    ensures Origin(r, id).Matched? || Origin(r, id) == NoOrigin(UnresolvedIdentity)
      || Origin(r, id) == NoOrigin(AbsentFromSnapshot)
  {
    hide Parse, FindFrom, EventOf, StepOf;
  }

  /** In an exported diagram the status of each journal's node means what it says. It is "matched"
      exactly if the call's edge ends at the node, and that edge, the event's key and its step are those
      of the one event and call that the journal came from. */
  lemma ExportMeans(d: Diagram, r: Request, s: set<string>, id: string)
    requires BaseOk(r) && Progress(d, r, s) && id in s && r.journal(id).Journal? && NulFree(r.journal(id).turn)
    ensures JournalNode(id) in d.fields && d.fields[JournalNode(id)].JournalFields?
    ensures d.fields[JournalNode(id)].content == r.journal(id).content
    ensures StatusMeaning(r, id, d.fields[JournalNode(id)].origin)
    ensures d.fields[JournalNode(id)].origin == MatchedOrigin <==>
      exists e :: e in d.edges && e.to == JournalNode(id) && e.relation.SameCallIdentity?
    ensures forall e :: e in d.edges && e.to == JournalNode(id) && e.relation.SameCallIdentity? ==>
      && e.from == EventNode(r.journal(id).turn) && e.from in d.fields && d.fields[e.from].EventFields?
      && Called(r, id, d.fields[e.from].key, e.relation.call, d.fields[e.from].step)
  {
    hide StatusMeaning, Called, Origin, Progress, BaseOk, StatusFrom, Readable;
    RunIsBase(r);
    JournalContent(d, r, s, id);
    OriginStatusMeans(r, id);
    CallEdges(d, r, s, id);
    MatchedIsStatus(r, id);
    var o := Origin(r, id);
    if o.Matched? {
      var e := Edge(EventNode(r.journal(id).turn), JournalNode(id), SameCallIdentity(o.call));
      assert e in d.edges;
      OriginsOn(r, id);
      assert Called(r, id, o.key, o.call, o.step);
    }
  }

  lemma OriginsOn(r: Request, id: string)
    requires r.journal(id).Journal? && Origin(r, id).Matched?
    ensures r.origins
  {
    hide Resolve;
  }

  lemma MatchedIsStatus(r: Request, id: string)
    requires Readable(r, id)
    ensures StatusFrom(Origin(r, id)) == MatchedOrigin <==> Origin(r, id).Matched?
  {
    hide Parse, FindFrom, EventOf, StepOf;
  }

  lemma JournalContent(d: Diagram, r: Request, s: set<string>, id: string)
    requires |r.base| > 0 && Progress(d, r, s) && id in s && r.journal(id).Journal?
    ensures Readable(r, id) && JournalNode(id) in d.fields
    ensures d.fields[JournalNode(id)] == JournalFields(r.journal(id).content, StatusFrom(Origin(r, id)))
    ensures var o, event := Origin(r, id), EventNode(r.journal(id).turn);
      o.Matched? ==> event in d.fields && d.fields[event] == EventFields(o.key, o.step)
  {
    hide Origin, Built, Kept, StatusFrom;
    assert ContentOf(r, id, d.fields);
  }

  /** The call edges that end at a journal's node. */
  lemma CallEdges(d: Diagram, r: Request, s: set<string>, id: string)
    requires BaseOk(r) && |r.base| > 0 && Progress(d, r, s) && id in s && r.journal(id).Journal?
    ensures var o := Origin(r, id);
      forall e: Edge {:trigger e in d.edges} ::
        e in d.edges && e.to == JournalNode(id) && e.relation.SameCallIdentity? <==>
        o.Matched? && e == Edge(EventNode(r.journal(id).turn), JournalNode(id), SameCallIdentity(o.call))
  {
    hide Origin, Progress, NewEdges, NewIds, EdgesOf, BaseOk;
    EdgesAre(d, r, s);
    var o := Origin(r, id);
    forall e: Edge {:trigger e in d.edges}
      ensures e in d.edges && e.to == JournalNode(id) && e.relation.SameCallIdentity? <==>
        o.Matched? && e == Edge(EventNode(r.journal(id).turn), JournalNode(id), SameCallIdentity(o.call))
    {
      if e.to == JournalNode(id) && e.relation.SameCallIdentity? { CallEdgeOf(r, s, id, e); }
    }
  }

  lemma EdgesAre(d: Diagram, r: Request, s: set<string>)
    requires BaseOk(r) && |r.base| > 0 && Progress(d, r, s)
    ensures forall e: Edge {:trigger e in d.edges} :: !e.relation.BaseRelation? ==>
      (e in d.edges <==> e in NewEdges(r, Run(r), s))
  {
    hide NewEdges, NewIds, ContentOf, Readable, Kept, NodesHold;
    var b := |r.baseEdges|;
    forall e: Edge {:trigger e in d.edges} | !e.relation.BaseRelation?
      ensures e in d.edges <==> e in NewEdges(r, Run(r), s)
    {
      assert d.edges == r.baseEdges + d.edges[b..];
      assert e in d.edges <==> e in r.baseEdges || e in SetOf(d.edges[b..]);
    }
  }

  lemma CallEdgeOf(r: Request, s: set<string>, id: string, e: Edge)
    requires |r.base| > 0 && id in s && r.journal(id).Journal?
    requires e.to == JournalNode(id) && e.relation.SameCallIdentity?
    ensures e in NewEdges(r, Run(r), s) <==>
      Origin(r, id).Matched?
      && e == Edge(EventNode(r.journal(id).turn), JournalNode(id), SameCallIdentity(Origin(r, id).call))
  {
    hide Origin, EdgesOf;
    CallOf(r, Run(r), id, e);
    if e in NewEdges(r, Run(r), s) {
      var k :| k in s && e in EdgesOf(r, Run(r), k);
      EdgesMean(r, Run(r), k);
    }
  }

  lemma CallOf(r: Request, run: NodeId, id: string, e: Edge)
    requires r.journal(id).Journal? && e.relation.SameCallIdentity?
    ensures e in EdgesOf(r, run, id) <==>
      Origin(r, id).Matched?
      && e == Edge(EventNode(r.journal(id).turn), JournalNode(id), SameCallIdentity(Origin(r, id).call))
  {
    hide Origin;
  }
}
