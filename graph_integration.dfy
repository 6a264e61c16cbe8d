/**
 * The graph integrator: it finds the decision nodes of a directed workflow
 * graph, splices a weight-calculator node in front of a target node (every
 * edge into the target is moved onto the new node, which then feeds the
 * target), adds feedback edges, and runs the weight calculator those nodes
 * carry.
 *
 * The graph is a directed graph without parallel edges: nodes in insertion
 * order, one attribute dictionary per node, and edges in insertion order,
 * at most one per ordered pair, each with its own attribute dictionary.
 */
module GraphIntegration {
  import opened Common
  import opened AdaptiveConfig
  import opened WeightManager
  import opened LayerManager

  type Attrs = map<string, string>

  datatype Edge = Edge(src: string, dst: string, attrs: Attrs)

  // ------------------------------------------------------------ edge lists

  /** The ordered pairs the edges join. */
  function Pairs(es: seq<Edge>): set<(string, string)>
  {
    if |es| == 0 then {} else {(es[0].src, es[0].dst)} + Pairs(es[1..])
  }

  predicate HasEdge(es: seq<Edge>, u: string, v: string)
  {
    (u, v) in Pairs(es)
  }

  /** No two edges join the same ordered pair. */
  predicate Simple(es: seq<Edge>)
  {
    |es| == 0 || ((es[0].src, es[0].dst) !in Pairs(es[1..]) && Simple(es[1..]))
  }

  /** Every edge joins two nodes of the graph. */
  predicate EndpointsIn(es: seq<Edge>, nodes: seq<string>)
  {
    forall p :: p in Pairs(es) ==> p.0 in nodes && p.1 in nodes
  }

  /** `get_edge_data(u, v)`: the attributes of the edge u → v (empty when there is none). */
  function EdgeData(es: seq<Edge>, u: string, v: string): Attrs
  {
    if |es| == 0 then map[]
    else if es[0].src == u && es[0].dst == v then es[0].attrs
    else EdgeData(es[1..], u, v)
  }

  /** `remove_edge(u, v)`: the list without the edge u → v. */
  function Without(es: seq<Edge>, u: string, v: string): (r: seq<Edge>)
    ensures Pairs(r) == Pairs(es) - {(u, v)}
    ensures Simple(es) ==> Simple(r)
  {
    if |es| == 0 then []
    else if es[0].src == u && es[0].dst == v then
      Without(es[1..], u, v)
    else
      var r := [es[0]] + Without(es[1..], u, v);
      assert r[1..] == Without(es[1..], u, v);
      r
  }

  /**
   * `add_edge(u, v, **attrs)`: an existing edge keeps its place and has its
   * attributes updated by the new ones; a new edge is appended.
   */
  function With(es: seq<Edge>, u: string, v: string, a: Attrs): (r: seq<Edge>)
    ensures Pairs(r) == Pairs(es) + {(u, v)}
    ensures Simple(es) ==> Simple(r)
    ensures EdgeData(r, u, v).Keys >= a.Keys
  {
    if |es| == 0 then [Edge(u, v, a)]
    else if es[0].src == u && es[0].dst == v then
      var r := [Edge(u, v, es[0].attrs + a)] + es[1..];
      assert r[1..] == es[1..];
      r
    else
      var r := [es[0]] + With(es[1..], u, v, a);
      assert r[1..] == With(es[1..], u, v, a);
      r
  }

  /** `predecessors(v)`: the sources of the edges into v, in edge insertion order. */
  function Preds(es: seq<Edge>, v: string): (ps: seq<string>)
    ensures forall u :: u in ps <==> (u, v) in Pairs(es)
    ensures Simple(es) ==> Unique(ps)
  {
    if |es| == 0 then []
    else if es[0].dst == v then
      var rest := Preds(es[1..], v);
      var ps := [es[0].src] + rest;
      assert forall k :: 1 <= k < |ps| ==> ps[k] == rest[k - 1];
      assert Simple(es) ==> es[0].src !in rest;
      assert forall k :: 1 <= k < |ps| ==> ps[k] in rest;
      ps
    else Preds(es[1..], v)
  }

  /** `AddedNode(ns, n)`: the node list after adding n, which is appended only when it is new. */
  function AddedNode(ns: seq<string>, n: string): (r: seq<string>)
    ensures forall x :: x in r <==> x in ns || x == n
    ensures Unique(ns) ==> Unique(r)
    ensures |ns| <= |r| && r[..|ns|] == ns
    ensures n in ns ==> r == ns
  {
    if n in ns then ns else ns + [n]
  }

  /** Edges that join nodes of ns still join nodes of any larger node list. */
  lemma EndpointsMonotone(es: seq<Edge>, ns: seq<string>, ns': seq<string>)
    requires EndpointsIn(es, ns) && forall x :: x in ns ==> x in ns'
    ensures EndpointsIn(es, ns')
  {
  }

  /** Adding an edge between two nodes keeps every edge between nodes. */
  lemma EndpointsWith(es: seq<Edge>, ns: seq<string>, u: string, v: string, a: Attrs)
    requires EndpointsIn(es, ns) && u in ns && v in ns
    ensures EndpointsIn(With(es, u, v, a), ns)
  {
    assert Pairs(With(es, u, v, a)) == Pairs(es) + {(u, v)};
  }

  /** Removing an edge keeps every edge between nodes. */
  lemma EndpointsWithout(es: seq<Edge>, ns: seq<string>, u: string, v: string)
    requires EndpointsIn(es, ns)
    ensures EndpointsIn(Without(es, u, v), ns)
  {
    assert Pairs(Without(es, u, v)) == Pairs(es) - {(u, v)};
  }

  /** The attribute dictionaries after n is touched: a new node gets an empty one. */
  function Touched(m: map<string, Attrs>, n: string): (r: map<string, Attrs>)
    ensures forall x :: x in r <==> x in m || x == n
    ensures forall x :: x in m ==> r[x] == m[x]
    ensures n in m ==> r == m
  {
    if n in m then m else m[n := map[]]
  }

  // ---------------------------------------------------------- the rewiring

  /** The edges after moving each listed predecessor's edge into t onto w, in list order. */
  function Rewired(es: seq<Edge>, ps: seq<string>, t: string, w: string): seq<Edge>
    decreases |ps|
  {
    if |ps| == 0 then es
    else
      var prev := Rewired(es, ps[..|ps| - 1], t, w);
      var p := ps[|ps| - 1];
      With(Without(prev, p, t), p, w, EdgeData(prev, p, t))
  }

  /**
   * Rewiring removes the edges from the listed nodes into t and adds edges from
   * them into w; every other pair is untouched.
   */
  lemma {:induction false} RewiredPairs(es: seq<Edge>, ps: seq<string>, t: string, w: string)
    requires t != w
    ensures forall x, y :: (x, y) in Pairs(Rewired(es, ps, t, w)) <==>
      ((x, y) in Pairs(es) && !(y == t && x in ps)) || (y == w && x in ps)
    ensures Simple(es) ==> Simple(Rewired(es, ps, t, w))
    decreases |ps|
  {
    if |ps| > 0 {
      var init := ps[..|ps| - 1];
      RewiredPairs(es, init, t, w);
      assert forall x :: x in ps <==> x in init || x == ps[|ps| - 1] by {
        LastSplit(ps);
      }
    }
  }

  /** Rewiring one more predecessor. */
  lemma RewiredStep(es: seq<Edge>, ps: seq<string>, i: nat, t: string, w: string)
    requires i < |ps|
    ensures Rewired(es, ps[..i + 1], t, w) ==
      With(Without(Rewired(es, ps[..i], t, w), ps[i], t), ps[i], w, EdgeData(Rewired(es, ps[..i], t, w), ps[i], t))
  {
    assert ps[..i + 1][..i] == ps[..i];
  }

  /** The edge list after injecting w in front of t: the rewiring, then w → t. */
  function Injected(es: seq<Edge>, t: string, w: string): seq<Edge>
  {
    With(Rewired(es, Preds(es, t), t, w), w, t, map["type" := "weighted_decision"])
  }

  /**
   * Injecting a new node w in front of t: w's predecessors are exactly t's
   * former predecessors, t's only predecessor is w, w's only successor is t,
   * and every edge into any other node is as before.
   */
  lemma InjectedShape(es: seq<Edge>, nodes: seq<string>, t: string, w: string)
    requires EndpointsIn(es, nodes) && t in nodes && w !in nodes
    ensures forall x :: HasEdge(Injected(es, t, w), x, w) <==> HasEdge(es, x, t)
    ensures forall x :: HasEdge(Injected(es, t, w), x, t) <==> x == w
    ensures forall y :: HasEdge(Injected(es, t, w), w, y) <==> y == t
    ensures forall x, y :: y != t && y != w ==> (HasEdge(Injected(es, t, w), x, y) <==> HasEdge(es, x, y))
  {
    RewiredPairs(es, Preds(es, t), t, w);
  }

  /** An injection keeps the edge list simple and within the nodes once w is a node. */
  lemma InjectedValid(es: seq<Edge>, nodes: seq<string>, t: string, w: string)
    requires Simple(es) && EndpointsIn(es, nodes) && t in nodes && w in nodes && t != w
    ensures Simple(Injected(es, t, w)) && EndpointsIn(Injected(es, t, w), nodes)
  {
    RewiredPairs(es, Preds(es, t), t, w);
  }

  // ---------------------------------------------------------- the graph

  /** A directed graph (no parallel edges) with node and edge attribute dictionaries. */
  class DiGraph {
    var nodes: seq<string>
    var nodeAttrs: map<string, Attrs>
    var edges: seq<Edge>

    /** Nodes are distinct and own an attribute dictionary; edges are simple and join nodes. */
    ghost predicate Valid()
      reads this
    {
      Unique(nodes) && (forall n :: n in nodeAttrs <==> n in nodes) && Simple(edges) && EndpointsIn(edges, nodes)
    }

    constructor ()
      ensures Valid() && nodes == [] && nodeAttrs == map[] && edges == []
    {
      nodes, nodeAttrs, edges := [], map[], [];
    }

    /** `add_node(n, **attrs)`: a new node is appended; the attributes update the node's dictionary. */
    method AddNode(n: string, a: Attrs)
      requires Valid()
      modifies this
      ensures Valid()
      ensures nodes == AddedNode(old(nodes), n) && edges == old(edges)
      ensures nodeAttrs == old(nodeAttrs)[n := (if n in old(nodeAttrs) then old(nodeAttrs)[n] else map[]) + a]
    {
      nodeAttrs := nodeAttrs[n := (if n in nodeAttrs then nodeAttrs[n] else map[]) + a];
      nodes := AddedNode(nodes, n);
    }

    /** `add_edge(u, v, **attrs)`: missing endpoints become nodes without attributes. */
    method AddEdge(u: string, v: string, a: Attrs)
      requires Valid()
      modifies this
      ensures Valid()
      ensures nodes == AddedNode(AddedNode(old(nodes), u), v)
      ensures nodeAttrs == Touched(Touched(old(nodeAttrs), u), v)
      ensures edges == With(old(edges), u, v, a)
    {
      var ns := AddedNode(AddedNode(nodes, u), v);
      EndpointsMonotone(edges, nodes, ns);
      EndpointsWith(edges, ns, u, v, a);
      nodeAttrs := Touched(Touched(nodeAttrs, u), v);
      nodes := ns;
      edges := With(edges, u, v, a);
    }

    /**
     * The loop of `inject_weight_node`: each predecessor's edge into t, in
     * turn, is removed and re-added into w with the same attributes.
     */
    method MoveInEdges(t: string, w: string) returns (preds: seq<string>)
      requires Valid() && t in nodes && w in nodes && t != w
      modifies this`edges
      ensures Valid()
      ensures preds == Preds(old(edges), t)
      ensures edges == Rewired(old(edges), preds, t, w)
    {
      preds := Preds(edges, t);
      var i := 0;
      while i < |preds|
        invariant 0 <= i <= |preds|
        invariant Valid()
        invariant edges == Rewired(old(edges), preds[..i], t, w)
      {
        var p := preds[i];
        RewiredPairs(old(edges), preds[..i], t, w);
        assert p !in preds[..i];
        assert (p, t) in Pairs(old(edges));
        var a := EdgeData(edges, p, t);
        RewiredStep(old(edges), preds, i, t, w);
        RemoveEdge(p, t);
        EndpointsWith(edges, nodes, p, w, a);
        edges := With(edges, p, w, a);
        i := i + 1;
      }
      assert preds[..i] == preds;
    }

    /**
     * The graph side of `inject_weight_node`: add w with the given attributes,
     * move every edge into t onto w, then join w to t.
     */
    method SpliceBefore(t: string, w: string, a: Attrs) returns (preds: seq<string>)
      requires Valid() && t in nodes && t != w
      modifies this
      ensures Valid()
      ensures preds == Preds(old(edges), t)
      ensures nodes == AddedNode(old(nodes), w)
      ensures nodeAttrs == old(nodeAttrs)[w := (if w in old(nodeAttrs) then old(nodeAttrs)[w] else map[]) + a]
      ensures edges == Injected(old(edges), t, w)
    {
      AddNode(w, a);
      ghost var ns, as_ := nodes, nodeAttrs;
      preds := MoveInEdges(t, w);
      AddEdge(w, t, map["type" := "weighted_decision"]);
      assert nodes == ns;
    }

    /** `remove_edge(u, v)`, which raises unless the edge exists. */
    method RemoveEdge(u: string, v: string)
      requires Valid() && HasEdge(edges, u, v)
      modifies this`edges
      ensures Valid()
      ensures edges == Without(old(edges), u, v)
    {
      EndpointsWithout(edges, nodes, u, v);
      edges := Without(edges, u, v);
    }
  }

  // ---------------------------------------------------------- the integrator

  const DecisionKeywords: seq<string> := ["decision", "consensus", "final", "execute", "trade"]
  const DecisionTypes: seq<string> := ["decision", "action", "trade"]

  /** A decision node: a keyword in its lower-cased name, or a decision-like "type" attribute. */
  predicate IsDecisionNode(n: string, attrs: map<string, Attrs>)
  {
    ContainsAny(Lower(n), DecisionKeywords)
    || (n in attrs && "type" in attrs[n] && attrs[n]["type"] in DecisionTypes)
  }

  /** The decision nodes among ns, in node order. */
  function DecisionNodes(ns: seq<string>, attrs: map<string, Attrs>): seq<string>
    decreases |ns|
  {
    if |ns| == 0 then []
    else DecisionNodes(ns[..|ns| - 1], attrs) + (if IsDecisionNode(ns[|ns| - 1], attrs) then [ns[|ns| - 1]] else [])
  }

  /** Exactly the decision nodes are found, and no more of them than there are nodes. */
  lemma {:induction false} DecisionNodesExactly(ns: seq<string>, attrs: map<string, Attrs>)
    ensures forall n :: n in DecisionNodes(ns, attrs) <==> n in ns && IsDecisionNode(n, attrs)
    ensures |DecisionNodes(ns, attrs)| <= |ns|
    decreases |ns|
  {
    if |ns| > 0 {
      var init := ns[..|ns| - 1];
      DecisionNodesExactly(init, attrs);
      LastSplit(ns);
    }
  }

  /** The name `inject_weight_node` gives the k-th weight node, for target t. */
  function WeightNodeName(t: string, k: nat): (name: string)
    ensures StartsWith(name, "weight_calc_") && |name| > |t|
  {
    "weight_calc_" + t + "_" + NatToString(k)
  }

  function WeightNodeAttrs(t: string): Attrs
  {
    map["type" := "weight_calculator", "description" := "为 " + t + " 计算智能体权重"]
  }

  const FeedbackAttrs: Attrs := map["type" := "feedback", "description" := "权重更新反馈"]

  /** What the integrator remembers about an injected node (the calculator itself is not modelled). */
  datatype WeightNodeInfo = WeightNodeInfo(target: string, predecessors: seq<string>)

  class GraphIntegrator {
    var graph: DiGraph?
    var weightNodes: seq<(string, WeightNodeInfo)>

    ghost predicate Valid()
      reads this, graph
    {
      graph != null ==> graph.Valid()
    }

    /** `if not self.trading_graph`: a missing graph and a graph without nodes both count as absent. */
    predicate HasGraph()
      reads this, graph
    {
      graph != null && |graph.nodes| > 0
    }

    /** A weight node can be injected in front of t: the graph is present and has t. */
    predicate Injectable(t: string)
      reads this, graph
    {
      HasGraph() && t in graph.nodes
    }

    constructor (g: DiGraph?)
      requires g != null ==> g.Valid()
      ensures Valid() && graph == g && weightNodes == []
    {
      graph, weightNodes := g, [];
    }

    /** `set_graph`. */
    method SetGraph(g: DiGraph)
      requires g.Valid()
      modifies this`graph
      ensures Valid() && graph == g
    {
      graph := g;
    }

    /** `find_decision_nodes`: [] without a graph, else the decision nodes in node order. */
    method FindDecisionNodes() returns (r: seq<string>)
      requires Valid()
      ensures !HasGraph() ==> r == []
      ensures HasGraph() ==> r == DecisionNodes(graph.nodes, graph.nodeAttrs)
    {
      if graph == null || |graph.nodes| == 0 {
        return [];
      }
      r := [];
      var i := 0;
      while i < |graph.nodes|
        invariant 0 <= i <= |graph.nodes|
        invariant r == DecisionNodes(graph.nodes[..i], graph.nodeAttrs)
      {
        var n := graph.nodes[i];
        PrefixSnoc(graph.nodes, i);
        assert graph.nodes[..i + 1][..i] == graph.nodes[..i];
        if IsDecisionNode(n, graph.nodeAttrs) {
          r := r + [n];
        }
        i := i + 1;
      }
      assert graph.nodes[..i] == graph.nodes;
    }

    /**
     * `inject_weight_node`: "" when the graph or the target is missing;
     * otherwise a weight node named after the target and the number of earlier
     * injections is added, every edge into the target is moved onto it, and
     * it is joined to the target.
     */
    method InjectWeightNode(target: string) returns (name: string)
      requires Valid()
      modifies this`weightNodes, graph
      ensures Valid() && graph == old(graph)
      ensures graph != null ==> |old(graph.nodes)| <= |graph.nodes| && graph.nodes[..|old(graph.nodes)|] == old(graph.nodes)
      ensures name != "" <==> old(Injectable(target))
      ensures name != "" ==> StartsWith(name, "weight_calc_")
      ensures !old(Injectable(target)) ==>
        name == "" && weightNodes == old(weightNodes) && (graph != null ==> unchanged(graph))
      ensures old(Injectable(target)) ==>
        name == WeightNodeName(target, |old(weightNodes)|)
        && graph.nodes == AddedNode(old(graph.nodes), name)
        && graph.nodeAttrs == old(graph.nodeAttrs)[name :=
             (if name in old(graph.nodeAttrs) then old(graph.nodeAttrs)[name] else map[]) + WeightNodeAttrs(target)]
        && graph.edges == Injected(old(graph.edges), target, name)
        && weightNodes == Put(old(weightNodes), name, WeightNodeInfo(target, Preds(old(graph.edges), target)))
    {
      if graph == null || |graph.nodes| == 0 || target !in graph.nodes {
        return "";
      }
      name := WeightNodeName(target, |weightNodes|);
      var preds := graph.SpliceBefore(target, name, WeightNodeAttrs(target));
      weightNodes := Put(weightNodes, name, WeightNodeInfo(target, preds));
    }

    /**
     * `integrate_with_graph`: ValueError without a graph; otherwise a weight
     * node in front of each requested target (the decision nodes when none are
     * requested), returning the names of those injected. The calculator the
     * nodes carry is not stored in the model.
     */
    method IntegrateWithGraph(nodeNames: seq<string>) returns (r: Result<seq<string>>)
      requires Valid()
      modifies this`weightNodes, graph
      ensures Valid() && graph == old(graph)
      ensures r.Err? <==> !old(HasGraph())
      ensures r.Err? ==> weightNodes == old(weightNodes) && (graph != null ==> unchanged(graph))
      ensures r.Ok? ==>
        var targets := if |nodeNames| > 0 then nodeNames else old(DecisionNodes(graph.nodes, graph.nodeAttrs));
        |r.value| <= |targets|
        && (forall k :: 0 <= k < |r.value| ==> StartsWith(r.value[k], "weight_calc_"))
        && ((forall k :: 0 <= k < |targets| ==> targets[k] in old(graph.nodes)) ==> |r.value| == |targets|)
        && |old(graph.nodes)| <= |graph.nodes| && graph.nodes[..|old(graph.nodes)|] == old(graph.nodes)
      ensures r.Ok? && |nodeNames| == 0 ==> |r.value| == |old(DecisionNodes(graph.nodes, graph.nodeAttrs))|
    {
      if graph == null || |graph.nodes| == 0 {
        return Err("ValueError: 未设置交易Graph");
      }
      var targets: seq<string>;
      if |nodeNames| > 0 {
        targets := nodeNames;
      } else {
        targets := FindDecisionNodes();
        DecisionNodesExactly(graph.nodes, graph.nodeAttrs);
      }
      ghost var n0 := graph.nodes;
      var injected: seq<string> := [];
      var i := 0;
      while i < |targets|
        invariant 0 <= i <= |targets|
        invariant Valid() && graph == old(graph)
        invariant |n0| <= |graph.nodes| && graph.nodes[..|n0|] == n0
        invariant |injected| <= i
        invariant forall x :: x in injected ==> StartsWith(x, "weight_calc_")
        invariant (forall k :: 0 <= k < |targets| ==> targets[k] in n0) ==> |injected| == i
      {
        ghost var before := graph.nodes;
        if targets[i] in n0 {
          PrefixIn(n0, before, targets[i]);
        }
        var w := InjectWeightNode(targets[i]);
        PrefixTrans(n0, before, graph.nodes);
        if w != "" {
          injected := injected + [w];
        }
        i := i + 1;
      }
      return Ok(injected);
    }

    /**
     * `add_feedback_edge`: adds (or updates) the edge from → to with the
     * feedback attributes exactly when the graph is present and has both nodes.
     */
    method AddFeedbackEdge(from: string, to: string) returns (ok: bool)
      requires Valid()
      modifies graph
      ensures Valid()
      ensures ok <==> old(HasGraph()) && from in old(graph.nodes) && to in old(graph.nodes)
      ensures ok ==>
        graph.edges == With(old(graph.edges), from, to, FeedbackAttrs)
        && HasEdge(graph.edges, from, to) && "type" in EdgeData(graph.edges, from, to)
        && graph.nodes == old(graph.nodes) && graph.nodeAttrs == old(graph.nodeAttrs)
      ensures !ok && graph != null ==> unchanged(graph)
    {
      if graph == null || |graph.nodes| == 0 {
        return false;
      }
      if from in graph.nodes && to in graph.nodes {
        graph.AddEdge(from, to, FeedbackAttrs);
        return true;
      }
      return false;
    }
  }

  // ------------------------------------------------------ the calculator

  /** What the calculator adds to the node data (`Unchanged`: the data is returned as it came). */
  datatype Calculation =
    | Unchanged
    | Weighted(weightedPredictions: seq<(string, real)>, weightedDecision: real,
               agentWeights: seq<(string, real)>, rawWeights: seq<(string, real)>)

  /** The `agents_info` the calculator builds: each predicting agent's layer and error, no volatility. */
  function AgentsInfo(wm: AdaptiveWeightManager, predictions: seq<(string, real)>): (infos: seq<(string, AgentInfo)>)
    reads wm
    requires wm.Valid()
    ensures |infos| == |predictions|
    ensures forall k :: 0 <= k < |infos| ==>
      infos[k].0 == predictions[k].0 && InfoError(infos[k].1) >= 0.0 && InfoVolatility(infos[k].1) == 1.0
  {
    seq(|predictions|, k requires 0 <= k < |predictions| reads wm requires wm.Valid() =>
      (predictions[k].0, AgentInfo(Some(wm.GetAgentLayer(predictions[k].0)), Some(wm.GetAgentError(predictions[k].0)), None)))
  }

  /** The dictionary after `update_weight(name, w)` for each suggested pair in turn (unknown names skipped). */
  function SetWeights(c: Config, m: map<string, AgentRecord>, ws: seq<(string, real)>): (m': map<string, AgentRecord>)
    decreases |ws|
    ensures forall n :: n in m' <==> n in m
  {
    if |ws| == 0 then m
    else
      var prev := SetWeights(c, m, ws[..|ws| - 1]);
      var x := ws[|ws| - 1];
      if x.0 in prev then prev[x.0 := Updated(c, prev[x.0], Some(x.1))] else prev
  }

  /** The history entries those updates log. */
  function SetLog(c: Config, m: map<string, AgentRecord>, ws: seq<(string, real)>): seq<HistoryEntry>
    decreases |ws|
  {
    if |ws| == 0 then []
    else
      var prev := SetWeights(c, m, ws[..|ws| - 1]);
      var x := ws[|ws| - 1];
      SetLog(c, m, ws[..|ws| - 1]) + (if x.0 in prev then [UpdateEntry(c, x.0, prev[x.0], Some(x.1))] else [])
  }

  lemma SetStep(c: Config, m: map<string, AgentRecord>, ws: seq<(string, real)>, x: (string, real))
    ensures SetWeights(c, m, ws + [x]) ==
      if x.0 in m then SetWeights(c, m, ws)[x.0 := Updated(c, SetWeights(c, m, ws)[x.0], Some(x.1))] else SetWeights(c, m, ws)
    ensures SetLog(c, m, ws + [x]) ==
      SetLog(c, m, ws) + (if x.0 in m then [UpdateEntry(c, x.0, SetWeights(c, m, ws)[x.0], Some(x.1))] else [])
  {
    assert (ws + [x])[..|ws|] == ws;
  }

  /**
   * For distinct names, each known agent ends with the weight suggested for it
   * (its record updated once, from the original), and agents not listed are
   * untouched.
   */
  lemma {:induction false} SetWeightsDistinct(c: Config, m: map<string, AgentRecord>, ws: seq<(string, real)>)
    requires Unique(Keys(ws))
    ensures forall k :: 0 <= k < |ws| && ws[k].0 in m ==>
      SetWeights(c, m, ws)[ws[k].0] == Updated(c, m[ws[k].0], Some(ws[k].1))
    ensures forall n :: n in m && n !in Keys(ws) ==> SetWeights(c, m, ws)[n] == m[n]
    decreases |ws|
  {
    if |ws| > 0 {
      var init := ws[..|ws| - 1];
      var x := ws[|ws| - 1];
      assert Keys(init) == Keys(ws)[..|ws| - 1];
      assert Unique(Keys(init));
      SetWeightsDistinct(c, m, init);
      assert forall n :: n in Keys(ws) <==> n in Keys(init) || n == x.0 by {
        assert Keys(ws) == Keys(init) + [x.0];
      }
      assert x.0 !in Keys(init);
    }
  }

  /** One weighted prediction. */
  function Term(x: (string, real), normalized: seq<(string, real)>): (string, real)
  {
    (x.0, x.1 * GetOr(normalized, x.0, 0.0))
  }

  /** The weighted predictions: each prediction times its normalised weight, 0 for an agent without one. */
  function WeightedTerms(predictions: seq<(string, real)>, normalized: seq<(string, real)>): (t: seq<(string, real)>)
    decreases |predictions|
  {
    if |predictions| == 0 then []
    else
      WeightedTerms(predictions[..|predictions| - 1], normalized) + [Term(predictions[|predictions| - 1], normalized)]
  }

  lemma WeightedTermsSnoc(predictions: seq<(string, real)>, normalized: seq<(string, real)>, x: (string, real))
    ensures WeightedTerms(predictions + [x], normalized) ==
      WeightedTerms(predictions, normalized) + [Term(x, normalized)]
  {
    var p := predictions + [x];
    assert |p| - 1 == |predictions| && p[|p| - 1] == x && p[..|p| - 1] == predictions;
  }

  /** Term by term: the agent's prediction times its weight, or 0 when the weights do not name it. */
  lemma {:induction false} WeightedTermsMeaning(predictions: seq<(string, real)>, normalized: seq<(string, real)>)
    ensures |WeightedTerms(predictions, normalized)| == |predictions|
    ensures Keys(WeightedTerms(predictions, normalized)) == Keys(predictions)
    ensures forall k :: 0 <= k < |predictions| && !HasKey(normalized, predictions[k].0) ==>
      WeightedTerms(predictions, normalized)[k].1 == 0.0
    ensures forall k :: 0 <= k < |predictions| && HasKey(normalized, predictions[k].0) ==>
      WeightedTerms(predictions, normalized)[k].1 == predictions[k].1 * Get(normalized, predictions[k].0).value
    decreases |predictions|
  {
    if |predictions| > 0 {
      var init := predictions[..|predictions| - 1];
      WeightedTermsMeaning(init, normalized);
      var t := WeightedTerms(predictions, normalized);
      assert forall k :: 0 <= k < |init| ==> t[k] == WeightedTerms(init, normalized)[k] && predictions[k] == init[k];
    }
  }

  /** The calculator's update loop: `update_weight(name, w)` for each suggested pair in order. */
  method ApplySuggestions(wm: AdaptiveWeightManager, suggested: seq<(string, real)>)
    requires wm.Valid()
    modifies wm`agents, wm`history
    ensures wm.Valid()
    ensures wm.agents == SetWeights(wm.config, old(wm.agents), suggested)
    ensures wm.history == old(wm.history) + SetLog(wm.config, old(wm.agents), suggested)
  {
    ghost var m := wm.agents;
    var i := 0;
    while i < |suggested|
      invariant 0 <= i <= |suggested|
      invariant wm.Valid() && wm.config == old(wm.config) && wm.names == old(wm.names)
      invariant wm.agents == SetWeights(wm.config, m, suggested[..i])
      invariant wm.history == old(wm.history) + SetLog(wm.config, m, suggested[..i])
    {
      PrefixSnoc(suggested, i);
      SetStep(wm.config, m, suggested[..i], suggested[i]);
      var _ := wm.UpdateWeight(suggested[i].0, Some(suggested[i].1));
      i := i + 1;
    }
    assert suggested[..i] == suggested;
  }

  /** The calculator's summing loop: the weighted predictions and their total. */
  method WeightPredictions(predictions: seq<(string, real)>, normalized: seq<(string, real)>)
    returns (terms: seq<(string, real)>, total: real)
    ensures terms == WeightedTerms(predictions, normalized)
    ensures total == Sum(Values(terms))
  {
    terms := [];
    total := 0.0;
    var j := 0;
    while j < |predictions|
      invariant 0 <= j <= |predictions|
      invariant terms == WeightedTerms(predictions[..j], normalized)
      invariant total == Sum(Values(terms))
    {
      var x := predictions[j];
      PrefixSnoc(predictions, j);
      var term := Term(x, normalized);
      assert Values(terms + [term]) == Values(terms) + [term.1];
      SumAppend(Values(terms), term.1);
      WeightedTermsSnoc(predictions[..j], normalized, x);
      terms := terms + [term];
      total := total + term.1;
      j := j + 1;
    }
    assert predictions[..j] == predictions;
  }

  /**
   * The function `create_weight_calculator` returns, applied to node data
   * with the given predictions: nothing to do without predictions; otherwise
   * each predicting agent's weight is set to its layer-adjusted suggestion,
   * the manager's normalised weights are read and the predictions weighted by
   * them.
   */
  method CalculateWeights(wm: AdaptiveWeightManager, predictions: seq<(string, real)>) returns (r: Calculation)
    requires wm.Valid()
    modifies wm`agents, wm`history
    ensures wm.Valid()
    ensures |predictions| == 0 ==> r == Unchanged && wm.agents == old(wm.agents) && wm.history == old(wm.history)
    ensures SuggestedWeights(old(AgentsInfo(wm, predictions))).Ok?
    ensures |predictions| > 0 ==>
      var suggested := SuggestedWeights(old(AgentsInfo(wm, predictions))).value;
      wm.agents == SetWeights(wm.config, old(wm.agents), suggested)
      && wm.history == old(wm.history) + SetLog(wm.config, old(wm.agents), suggested)
      && r.Weighted?
      && r.weightedPredictions == WeightedTerms(predictions, wm.NormalizedWeights())
      && r.weightedDecision == Sum(Values(r.weightedPredictions))
      && r.agentWeights == wm.NormalizedWeights()
      && r.rawWeights == old(wm.AllWeights())
  {
    var infos := AgentsInfo(wm, predictions);
    SuggestionsDefined(infos);
    if |predictions| == 0 {
      return Unchanged;
    }
    var raw := wm.AllWeights();
    ApplySuggestions(wm, SuggestedWeights(infos).value);
    var normalized := wm.NormalizedWeights();
    var terms, total := WeightPredictions(predictions, normalized);
    r := Weighted(terms, total, normalized, raw);
  }
}
