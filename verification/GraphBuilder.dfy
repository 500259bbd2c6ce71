/** Building the support graph: nodes with where they run, edges, and the targets a router may name. */
module GraphBuilder {
  import opened Wrappers
  import opened Tickets
  import opened SupportGraph

  /** Where a node runs; an activity has a timeout (seconds) and a number of attempts. */
  datatype Execution = InWorkflow | InActivity(startToClose: nat, attempts: nat)

  const LLM_NODE := InActivity(120, 3)
  const IO_NODE := InActivity(30, 3)
  const ACTION_NODE := InActivity(60, 3)

  datatype Graph = Graph(entry: Option<Node>, nodes: map<Node, Execution>, edges: set<(Node, Node)>)

  class StateGraph {
    var entry: Option<Node>
    var nodes: map<Node, Execution>
    var edges: set<(Node, Node)>

    constructor ()
      ensures View() == Graph(None, map[], {})
    {
      entry, nodes, edges := None, map[], {};
    }

    function View(): Graph
      reads this
    {
      Graph(entry, nodes, edges)
    }

    method AddNode(n: Node, execution: Execution)
      modifies this
      ensures View() == old(View()).(nodes := old(nodes)[n := execution])
    {
      nodes := nodes[n := execution];
    }

    method AddEdge(from: Node, to: Node)
      modifies this
      ensures View() == old(View()).(edges := old(edges) + {(from, to)})
    {
      edges := edges + {(from, to)};
    }

    method AddConditionalEdges(from: Node, targets: set<Node>)
      modifies this
      ensures View() == old(View()).(edges := old(edges) + set to | to in targets :: (from, to))
    {
      edges := edges + set to | to in targets :: (from, to);
    }

    method SetEntry(n: Node)
      modifies this
      ensures View() == old(View()).(entry := Some(n))
    {
      entry := Some(n);
    }
  }

  /** The graph declares exactly the moves the nodes and routers make: every declared edge is taken for some
      state, no state takes another, and each node's time budget is the one it was declared with. */
  ghost predicate Declares(settings: Settings, g: Graph) {
    && g.entry == Some(Sanitize) && (forall n: Node :: n in g.nodes <==> n != End)
    && EdgesTaken(settings, g) && Budgeted(g)
  }

  ghost predicate EdgesTaken(settings: Settings, g: Graph) {
    forall n, to :: n in g.nodes ==> ((n, to) in g.edges <==> exists v :: Next(settings, n, v) == to)
  }

  ghost predicate Budgeted(g: Graph) {
    && (forall n :: n in g.nodes ==>
         StartToClose(n) == match g.nodes[n] case InWorkflow => 0 case InActivity(s, _) => s)
    && (forall n :: n in g.nodes && g.nodes[n].InActivity? ==> g.nodes[n].attempts == MAX_ATTEMPTS)
  }

  const SUPPORT_GRAPH := Graph(
    Some(Sanitize),
    map[Sanitize := InWorkflow, Classify := LLM_NODE, Retrieve := IO_NODE, MakePlan := LLM_NODE,
        ExecuteReadTools := IO_NODE, Draft := LLM_NODE, Reflect := LLM_NODE, Approval := InWorkflow,
        ApplyAction := ACTION_NODE],
    {(Sanitize, Classify), (Classify, Retrieve), (Retrieve, MakePlan), (MakePlan, ExecuteReadTools),
     (ExecuteReadTools, Draft), (Draft, Reflect), (Reflect, Draft), (Reflect, Approval),
     (Approval, ApplyAction), (Approval, End), (ApplyAction, End)})

  method AddNodes(builder: StateGraph)
    requires builder.nodes == map[]
    modifies builder
    ensures builder.View() == old(builder.View()).(nodes := SUPPORT_GRAPH.nodes)
  {
    builder.AddNode(Sanitize, InWorkflow);
    builder.AddNode(Classify, LLM_NODE);
    builder.AddNode(Retrieve, IO_NODE);
    builder.AddNode(MakePlan, LLM_NODE);
    builder.AddNode(ExecuteReadTools, IO_NODE);
    builder.AddNode(Draft, LLM_NODE);
    builder.AddNode(Reflect, LLM_NODE);
    builder.AddNode(Approval, InWorkflow);
    builder.AddNode(ApplyAction, ACTION_NODE);
    assert builder.nodes == SUPPORT_GRAPH.nodes;
  }

  method AddEdges(builder: StateGraph)
    requires builder.edges == {}
    modifies builder
    ensures builder.View() == old(builder.View()).(edges := SUPPORT_GRAPH.edges)
  {
    builder.AddEdge(Sanitize, Classify);
    builder.AddEdge(Classify, Retrieve);
    builder.AddEdge(Retrieve, MakePlan);
    builder.AddEdge(MakePlan, ExecuteReadTools);
    builder.AddEdge(ExecuteReadTools, Draft);
    builder.AddEdge(Draft, Reflect);
    builder.AddConditionalEdges(Reflect, {Draft, Approval});
    builder.AddConditionalEdges(Approval, {ApplyAction, End});
    builder.AddEdge(ApplyAction, End);
    assert builder.edges == SUPPORT_GRAPH.edges;
  }

  method BuildSupportGraph() returns (builder: StateGraph)
    ensures fresh(builder) && builder.View() == SUPPORT_GRAPH
  {
    builder := new StateGraph();
    AddNodes(builder);
    builder.SetEntry(Sanitize);
    AddEdges(builder);
  }

  /** A state from which a node moves to a target, if it ever does. */
  function Witness(settings: Settings, n: Node, to: Node): Values {
    var v := Values("", "", None, None, None, None, None, 0, None, None, None, None);
    if n == Reflect then v.(passed := Some(to != Draft), reflections := 0)
    else if n == Approval && to == ApplyAction then v.(approval := Some(Decision(true, "", None)))
    else v
  }

  lemma EdgesAreMoves(settings: Settings, n: Node, to: Node)
    requires n != End
    ensures (n, to) in SUPPORT_GRAPH.edges <==> exists v :: Next(settings, n, v) == to
  {
    if (n, to) in SUPPORT_GRAPH.edges { assert Next(settings, n, Witness(settings, n, to)) == to; }
  }

  /** Where two edges leave a node, which is taken. */
  ghost predicate Routes(settings: Settings) {
    && (forall v: Values :: v.passed.Some? ==>
         (Next(settings, Reflect, v) == Draft <==> !v.passed.value && v.reflections <= settings.maxReflectionLoops))
    && (forall v: Values ::
         Next(settings, Approval, v) == ApplyAction <==> v.approval.Some? && v.approval.value.approve)
  }

  lemma RoutersChoose(settings: Settings)
    ensures Routes(settings)
  {}

  lemma GraphBudgeted()
    ensures Budgeted(SUPPORT_GRAPH)
  {}

  lemma GraphEdgesTaken(settings: Settings)
    ensures EdgesTaken(settings, SUPPORT_GRAPH)
  {
    forall n, to | n in SUPPORT_GRAPH.nodes
      ensures (n, to) in SUPPORT_GRAPH.edges <==> exists v :: Next(settings, n, v) == to
    {
      EdgesAreMoves(settings, n, to);
    }
  }

  /** So the declared graph and the modelled moves are one; and where two edges leave a node, a failed critique with
      loops left goes back to the draft, and an approval to the action. */
  lemma SupportGraphDeclares(settings: Settings)
    ensures Declares(settings, SUPPORT_GRAPH) && Routes(settings)
  {
    GraphEdgesTaken(settings);
    GraphBudgeted();
    RoutersChoose(settings);
  }
}
