/** The two-stage pipeline: a fixed graph `retriever -> generator -> END`,
    built on first use and then reused. The LangGraph runtime that walks the
    compiled graph is library code; `Path` states the order in which it visits
    the nodes of a graph whose every node has one outgoing edge. */
module Graph {
  import opened Wrappers
  import opened State
  import opened AgentNodes

  /** LangGraph's terminal marker. */
  const End := "__end__"

  /** A graph under construction: node names in registration order, the entry
      point, and the plain edges in the order they were added. */
  datatype StateGraph = StateGraph(nodes: seq<string>, entry: Option<string>, edges: seq<(string, string)>)
  {
    function AddNode(name: string): StateGraph {
      this.(nodes := nodes + [name])
    }

    function SetEntryPoint(name: string): StateGraph {
      this.(entry := Some(name))
    }

    function AddEdge(from: string, to: string): StateGraph {
      this.(edges := edges + [(from, to)])
    }

    /** `flow.compile()`: the frozen graph the builder describes. */
    function Compile(): CompiledGraph {
      CompiledGraph(nodes, entry, edges)
    }
  }

  datatype CompiledGraph = CompiledGraph(nodes: seq<string>, entry: Option<string>, edges: seq<(string, string)>)

  /** The target of the first edge leaving `node`, if any. */
  function Next(edges: seq<(string, string)>, node: string): Option<string> {
    if edges == [] then None
    else if edges[0].0 == node then Some(edges[0].1)
    else Next(edges[1..], node)
  }

  /** The nodes run, in order, when the graph is entered at `at` and each node
      hands over along its edge, until END (or a node with no edge, or after
      `fuel` steps). */
  function Path(edges: seq<(string, string)>, at: string, fuel: nat): seq<string>
    decreases fuel
  {
    if fuel == 0 || at == End then []
    else match Next(edges, at)
      case None => [at]
      case Some(to) => [at] + Path(edges, to, fuel - 1)
  }

  /** The order in which invoking the compiled graph runs its nodes. */
  function Schedule(g: CompiledGraph): seq<string> {
    match g.entry
    case None => []
    case Some(e) => Path(g.edges, e, |g.nodes|)
  }

  /** The shape `build` gives the graph: exactly the nodes `retriever` and
      `generator`, entry `retriever`, edges `retriever -> generator -> END`. */
  predicate IsPipeline(g: CompiledGraph) {
    && g.nodes == ["retriever", "generator"]
    && g.entry == Some("retriever")
    && g.edges == [("retriever", "generator"), ("generator", End)]
  }

  /** Invoking such a graph runs `retriever`, then `generator`, then stops. */
  lemma PipelineSchedule(g: CompiledGraph)
    requires IsPipeline(g)
    ensures Schedule(g) == ["retriever", "generator"]
    ensures Next(g.edges, "generator") == Some(End)
  {
    assert "retriever"[0] != "generator"[0];
    assert Next(g.edges, "retriever") == Some("generator");
    assert Next(g.edges, "generator") == Some(End);
    assert Path(g.edges, "generator", 1) == ["generator"] + Path(g.edges, End, 0) == ["generator"];
    assert Path(g.edges, "retriever", 2) == ["retriever"] + Path(g.edges, "generator", 1);
  }

  class GraphBuilder {
    const nodes: AgentNode
    var graph: Option<CompiledGraph>
    /** How many times the graph has been built. */
    ghost var builds: nat

    ghost predicate Valid()
      reads this, nodes
    {
      && nodes.Valid()
      && (graph.None? <==> builds == 0)
      && (graph.Some? ==> IsPipeline(graph.value))
    }

    constructor(retriever: Search, llm: Llm)
      ensures Valid() && fresh(nodes)
      ensures nodes.retriever == retriever && nodes.llm == llm && nodes.agent.None?
      ensures graph.None? && builds == 0
    {
      nodes := new AgentNode(retriever, llm);
      graph := None;
      builds := 0;
    }

    /** `build`: registers the nodes `retriever` and `generator`, enters at
        `retriever`, links `retriever -> generator -> END`, stores the compiled
        graph and returns it. */
    method Build() returns (g: CompiledGraph)
      requires Valid()
      modifies this`graph, this`builds
      ensures Valid()
      ensures graph == Some(g) && builds == old(builds) + 1
      ensures IsPipeline(g)
    {
      var flow := StateGraph([], None, []);
      flow := flow.AddNode("retriever");
      flow := flow.AddNode("generator");
      flow := flow.SetEntryPoint("retriever");
      flow := flow.AddEdge("retriever", "generator");
      flow := flow.AddEdge("generator", End);
      graph := Some(flow.Compile());
      builds := builds + 1;
      g := graph.value;
    }

    /** `run`: builds the graph only if there is none, then sends a state with
        only the question set through `retriever` and then `generator`. */
    method Run(question: string, invoke: AgentInvoke) returns (result: GraphState)
      requires Valid()
      modifies this`graph, this`builds, nodes`agent, nodes`builds
      ensures Valid()
      ensures old(graph).Some? ==> graph == old(graph) && builds == old(builds)
      ensures old(graph).None? ==> builds == old(builds) + 1 == 1
      ensures graph.Some? && IsPipeline(graph.value)
      ensures old(nodes.agent).Some? ==> nodes.agent == old(nodes.agent) && nodes.builds == old(nodes.builds)
      ensures old(nodes.agent).None? ==> nodes.builds == 1
      ensures result == nodes.Generated(nodes.RetrieveDocs(GraphState(question)), invoke)
      ensures result.question == question
      ensures result.retrievedDocs == nodes.retriever(question)
      ensures result.answer != ""
    {
      if graph.None? {
        var _ := Build();
      }
      var initialState := GraphState(question);
      var retrieved := nodes.RetrieveDocs(initialState);
      result := nodes.GenerateAnswer(retrieved, invoke);
    }
  }

  /** Two runs on one builder: the graph and the agent are each built once
      (`graphBuilds`, `agentBuilds`) and each answer belongs to its own
      question. */
  method RunTwice(retriever: Search, llm: Llm, invoke: AgentInvoke, q1: string, q2: string)
    returns (r1: GraphState, r2: GraphState, ghost graphBuilds: nat, ghost agentBuilds: nat)
    ensures graphBuilds == 1 && agentBuilds == 1
    ensures r1.question == q1 && r1.retrievedDocs == retriever(q1) && r1.answer != ""
    ensures r2.question == q2 && r2.retrievedDocs == retriever(q2) && r2.answer != ""
  {
    var builder := new GraphBuilder(retriever, llm);
    r1 := builder.Run(q1, invoke);
    r2 := builder.Run(q2, invoke);
    graphBuilds, agentBuilds := builder.builds, builder.nodes.builds;
  }
}
