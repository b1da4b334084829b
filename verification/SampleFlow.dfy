/**
 A family of small flows, for showing what a setting does: start, one block that captures a reply, a second question,
 end. A member is sound exactly when the settings of the capturing block are.
 */
module SampleFlow {
  import opened Wrappers
  import opened Json
  import opened FlowGraph
  import opened GraphSearch
  import opened FlowValidator

  const HERE := Position("0", "0")
  const FIRST := Node("a", Start, "", HERE, map[])
  const QUESTION := Node("c", Input, "", HERE, map["variable" := Str("w"), "text" := Str("?")])
  const LAST := Node("d", End, "", HERE, map[])

  predicate Captures(m: Node) {
    m.id == "b" && (m.kind == Input || m.kind == Menu)
  }

  function Exits(ports: seq<string>): (edges: seq<Edge>)
    ensures |edges| == |ports| && forall i | 0 <= i < |edges| :: edges[i] == Edge(ports[i], "b", "c", ports[i])
  {
    seq(|ports|, i requires 0 <= i < |ports| => Edge(ports[i], "b", "c", ports[i]))
  }

  function Edges(m: Node): seq<Edge> {
    [Edge("in", "a", "b", "next"), Edge("out", "c", "d", "next")] + Exits(FlowPorts(m))
  }

  function Sample(m: Node): Graph {
    Graph([FIRST, m, QUESTION, LAST], Edges(m))
  }

  lemma PortsAreDistinct(h: Host, m: Node)
    requires Captures(m) && Configured(h, m)
    ensures FlowPorts(m) != [] && |FlowPorts(m)| <= 10
    ensures forall i | 0 <= i < |FlowPorts(m)| ::
      FlowPorts(m)[i] != "in" && FlowPorts(m)[i] != "out" && 1 <= |FlowPorts(m)[i]| <= 9
    ensures forall i, j | 0 <= i < j < |FlowPorts(m)| :: FlowPorts(m)[i] != FlowPorts(m)[j]
  {
    if m.kind == Menu {
      var options := MenuOptions(m);
      forall i | 0 <= i < |options| ensures |options[i].value| <= 2 && OptionPort(options[i])[..7] == "option-" {
        assert options[i] in options;
      }
      forall i, j | 0 <= i < j < |options| ensures OptionPort(options[i]) != OptionPort(options[j]) {
        assert OptionPort(options[i])[7..] == options[i].value && OptionPort(options[j])[7..] == options[j].value;
      }
    }
  }

  lemma EdgeOf(m: Node, e: Edge)
    requires e in Edges(m)
    ensures || e == Edge("in", "a", "b", "next") || e == Edge("out", "c", "d", "next")
            || (e.source == "b" && e.target == "c" && e.port == e.id && e.port in FlowPorts(m))
  {
    hide FlowPorts;
    var i :| 0 <= i < |Edges(m)| && Edges(m)[i] == e;
    if i >= 2 { assert Edges(m)[i] == Exits(FlowPorts(m))[i - 2]; }
  }

  lemma ExitOf(m: Node, port: string)
    requires port in FlowPorts(m)
    ensures Edge(port, "b", "c", port) in Edges(m)
  {
    hide FlowPorts;
    var i :| 0 <= i < |FlowPorts(m)| && FlowPorts(m)[i] == port;
    assert Edges(m)[i + 2] == Edge(port, "b", "c", port);
  }

  lemma BlocksAreDistinct(m: Node)
    requires Captures(m)
    ensures Distinct(IdsOf([FIRST, m, QUESTION, LAST]))
  {
    var ids := IdsOf([FIRST, m, QUESTION, LAST]);
    assert ids[0] == "a" && ids[1] == "b" && ids[2] == "c" && ids[3] == "d";
    hide *;
    assert "a"[0] == 'a' && "b"[0] == 'b' && "c"[0] == 'c' && "d"[0] == 'd';
    AllDiffer(ids);
  }

  lemma AllDiffer(ids: seq<string>)
    requires |ids| == 4 && ids[0] != ids[1] && ids[0] != ids[2] && ids[0] != ids[3]
    requires ids[1] != ids[2] && ids[1] != ids[3] && ids[2] != ids[3]
    ensures Distinct(ids)
  {
  }

  lemma OneIsStart(m: Node)
    requires Captures(m)
    ensures OneStart([FIRST, m, QUESTION, LAST])
  {
    var nodes := [FIRST, m, QUESTION, LAST];
    StartComesFirst(nodes);
    assert nodes[1..] == [m, QUESTION, LAST];
    hide OneStart;
  }

  lemma SampleNodeIds(m: Node)
    requires Captures(m)
    ensures NodeIds([FIRST, m, QUESTION, LAST]) == {"a", "b", "c", "d"}
  {
    var nodes := [FIRST, m, QUESTION, LAST];
    assert nodes[0] in nodes && nodes[1] in nodes && nodes[2] in nodes && nodes[3] in nodes;
    assert nodes[0].id == "a" && nodes[1].id == "b" && nodes[2].id == "c" && nodes[3].id == "d";
    hide Captures;
  }

  lemma EdgesAreDistinct(h: Host, m: Node)
    requires Captures(m) && Configured(h, m)
    ensures Distinct(EdgeIdsOf(Edges(m))) && OutputsFunctional(Edges(m))
  {
    PortsAreDistinct(h, m);
    hide Configured, FlowPorts;
    var ports, edges := FlowPorts(m), Edges(m);
    assert edges[0] == Edge("in", "a", "b", "next") && edges[1] == Edge("out", "c", "d", "next");
    assert forall i | 2 <= i < |edges| :: edges[i] == Edge(ports[i - 2], "b", "c", ports[i - 2]);
    hide *;
    forall i, j | 0 <= i < j < |edges|
      ensures edges[i].id != edges[j].id && (edges[i].source != edges[j].source || edges[i].port != edges[j].port)
    {
      if i >= 2 { assert ports[i - 2] != ports[j - 2]; }
    }
    assert Distinct(EdgeIdsOf(edges)) && OutputsFunctional(edges) by { DifferentEdges(edges); }
  }

  lemma DifferentEdges(edges: seq<Edge>)
    requires forall i, j | 0 <= i < j < |edges| ::
      edges[i].id != edges[j].id && (edges[i].source != edges[j].source || edges[i].port != edges[j].port)
    ensures Distinct(EdgeIdsOf(edges)) && OutputsFunctional(edges)
  {
  }

  lemma SampleIds(h: Host, m: Node)
    requires Captures(m) && Configured(h, m)
    ensures Distinct(IdsOf(Sample(m).nodes)) && Distinct(EdgeIdsOf(Sample(m).edges))
    ensures OutputsFunctional(Sample(m).edges) && OneStart(Sample(m).nodes) && EndpointsExist(Sample(m))
  {
    BlocksAreDistinct(m);
    OneIsStart(m);
    SampleNodeIds(m);
    EdgesAreDistinct(h, m);
    hide Configured, FlowPorts, NodeIds, Distinct, OutputsFunctional, OneStart, Edges;
    var g := Sample(m);
    forall e <- g.edges ensures e.source in NodeIds(g.nodes) && e.target in NodeIds(g.nodes) { EdgeOf(m, e); }
  }

  lemma SampleFinds(h: Host, m: Node)
    requires Captures(m) && Configured(h, m)
    ensures var nodes := Sample(m).nodes;
      && FindNode(nodes, "a") == Some(FIRST) && FindNode(nodes, "b") == Some(m)
      && FindNode(nodes, "c") == Some(QUESTION) && FindNode(nodes, "d") == Some(LAST)
      && StartId(Sample(m)) == Some("a")
  {
    SampleIds(h, m);
    var nodes := Sample(m).nodes;
    assert FIRST in nodes && m in nodes && QUESTION in nodes && LAST in nodes;
    FindIsUnique(nodes, FIRST);
    FindIsUnique(nodes, m);
    FindIsUnique(nodes, QUESTION);
    FindIsUnique(nodes, LAST);
  }

  lemma SampleIsLegal(h: Host, m: Node)
    requires Captures(m) && Configured(h, m)
    ensures forall e <- Sample(m).edges :: EdgeLegal(Sample(m), e)
    ensures forall n <- Sample(m).nodes :: NodeLegal(h, Sample(m), n)
  {
    var g := Sample(m);
    forall e <- g.edges ensures EdgeLegal(g, e) { SampleEdgeIsLegal(h, m, e); }
    forall n <- g.nodes ensures NodeLegal(h, g, n) { SampleNodeIsLegal(h, m, n); }
  }

  lemma SampleEdgeIsLegal(h: Host, m: Node, e: Edge)
    requires Captures(m) && Configured(h, m) && e in Edges(m)
    ensures EdgeLegal(Sample(m), e)
  {
    SampleFinds(h, m);
    EdgeOf(m, e);
    hide FindNode, Configured, MenuOptions, Edges, StartId;
  }

  lemma SampleNodeIsLegal(h: Host, m: Node, n: Node)
    requires Captures(m) && Configured(h, m) && n in Sample(m).nodes
    ensures NodeLegal(h, Sample(m), n)
  {
    assert n == FIRST || n == m || n == QUESTION || n == LAST by { hide Edges; }
    hide *;
    if n == m { CapturingIsLegal(h, m); } else { OtherIsLegal(h, m, n); }
  }

  lemma CapturingIsLegal(h: Host, m: Node)
    requires Captures(m) && Configured(h, m)
    ensures NodeLegal(h, Sample(m), m)
  {
    hide Edges, Connected, FlowPorts, Configured;
    CapturingIsConnected(m);
  }

  lemma OtherIsLegal(h: Host, m: Node, n: Node)
    requires n == FIRST || n == QUESTION || n == LAST
    ensures NodeLegal(h, Sample(m), n)
  {
    hide Edges, Connected, SafeKey;
    QuestionIsConfigured(h);
    OthersAreConnected(m);
  }

  lemma CapturingIsConnected(m: Node)
    requires Captures(m)
    ensures forall port <- FlowPorts(m) :: Connected(Edges(m), m.id, port)
  {
    hide FlowPorts, Edges;
    forall port <- FlowPorts(m) ensures Connected(Edges(m), "b", port) { ExitOf(m, port); }
  }

  lemma OthersAreConnected(m: Node)
    ensures Connected(Edges(m), "a", "next") && Connected(Edges(m), "c", "next")
  {
    hide FlowPorts;
    assert Edges(m)[0] in Edges(m) && Edges(m)[1] in Edges(m);
  }

  lemma QuestionIsConfigured(h: Host)
    ensures Configured(h, QUESTION)
  {
    assert SafeKey("w");
  }

  lemma SamplePaths(h: Host, m: Node)
    requires Captures(m) && Configured(h, m)
    ensures var edges := Edges(m); Reaches(edges, {}, "a", "a") && Reaches(edges, {}, "a", "b")
    ensures var edges := Edges(m); Reaches(edges, {}, "a", "c") && Reaches(edges, {}, "a", "d")
  {
    PortsAreDistinct(h, m);
    hide Configured, FlowPorts, Reaches, Leads;
    var edges := Edges(m);
    assert edges[0] in edges && edges[1] in edges;
    ExitOf(m, FlowPorts(m)[0]);
    hide Edges;
    ReachesItself(edges, {}, "a");
    ReachesThenLink(edges, {}, "a", "a", "b");
    ReachesThenLink(edges, {}, "a", "b", "c");
    ReachesThenLink(edges, {}, "a", "c", "d");
  }

  lemma SampleIsReached(h: Host, m: Node)
    requires Captures(m) && Configured(h, m)
    ensures forall n <- Sample(m).nodes :: ReachableFromStart(Sample(m), n.id)
  {
    SampleFinds(h, m);
    SamplePaths(h, m);
    hide Configured, FlowPorts, Reaches, Edges, StartId, FindNode;
    assert FIRST.id == "a" && QUESTION.id == "c" && LAST.id == "d";
  }

  const BACKWARD := ["d", "c", "b", "a"]

  lemma LinksGoBack(m: Node, cut: set<string>)
    ensures Backwards(Edges(m), cut, BACKWARD)
  {
    var edges := Edges(m);
    assert BACKWARD[..0] == [] && BACKWARD[..1] == ["d"] && BACKWARD[..2] == ["d", "c"]
      && BACKWARD[..3] == ["d", "c", "b"];
    assert BACKWARD[0] == "d" && BACKWARD[1] == "c" && BACKWARD[2] == "b" && BACKWARD[3] == "a";
    forall i, y | 0 <= i < |BACKWARD| && Link(edges, cut, BACKWARD[i], y) ensures y in BACKWARD[..i] {
      LinkGoesBack(m, cut, BACKWARD[i], y);
    }
  }

  lemma LinkGoesBack(m: Node, cut: set<string>, x: string, y: string)
    requires Link(Edges(m), cut, x, y)
    ensures (x == "a" && y == "b") || (x == "b" && y == "c") || (x == "c" && y == "d")
  {
    var e :| e in Edges(m) && e.source == x && e.target == y;
    EdgeOf(m, e);
  }

  lemma SampleIsAcyclic(h: Host, m: Node, cut: set<string>)
    requires Captures(m) && Configured(h, m)
    ensures !(exists x :: Leads(Edges(m), cut, x, x))
  {
    SampleNodeIds(m);
    SampleIds(h, m);
    LinksGoBack(m, cut);
    hide Configured, FlowPorts, Leads, CycleFrom, Edges, Backwards, NodeIds, Distinct, OutputsFunctional, OneStart;
    var g := Sample(m);
    assert BACKWARD[0] == "d" && BACKWARD[1] == "c" && BACKWARD[2] == "b" && BACKWARD[3] == "a";
    forall id <- NodeIds(g.nodes) ensures !CycleFrom(g.edges, cut, id) {
      BackwardsIsAcyclic(g.edges, cut, BACKWARD, id);
    }
    CycleCheckIsComplete(g.edges, cut, NodeIds(g.nodes));
  }

  /**
   The flow is well formed if and only if the capturing block is configured, its shape fits, and the graph is within
   bounds.
   */
  lemma SampleIsWellFormedIff(h: Host, m: Node)
    requires Captures(m)
    ensures WellFormed(h, Sample(m)) <==> Configured(h, m) && NodeShape(m) && h.withinBounds(Sample(m))
  {
    assert m in Sample(m).nodes;
    if Configured(h, m) {
      SampleFits(h, m);
      SampleIsSound(h, m);
      hide *;
      assert WellFormed(h, Sample(m)) <==> Shape(h, Sample(m)) && Sound(h, Sample(m)) by {
        WellFormedParts(h, Sample(m));
      }
    } else {
      hide Configured, Shape, Sample, Distinct, OneStart, EndpointsExist, OutputsFunctional, EdgeLegal,
           ReachableFromStart, Leads;
    }
  }

  lemma WellFormedParts(h: Host, g: Graph)
    ensures WellFormed(h, g) <==> Shape(h, g) && Sound(h, g)
  {
    hide Shape, Sound;
  }

  lemma SampleIsSound(h: Host, m: Node)
    requires Captures(m) && Configured(h, m)
    ensures Sound(h, Sample(m))
  {
    SampleIds(h, m);
    SampleIsLegal(h, m);
    SampleIsReached(h, m);
    SampleIsAcyclic(h, m, WaitingIds(Sample(m)));
    hide Configured, Edges, Leads, Distinct, OutputsFunctional, OneStart, EndpointsExist, EdgeLegal, NodeLegal,
         ReachableFromStart, WaitingIds;
  }

  lemma SampleFits(h: Host, m: Node)
    requires Captures(m) && Configured(h, m)
    ensures Shape(h, Sample(m)) <==> NodeShape(m) && h.withinBounds(Sample(m))
  {
    hide *;
    SampleParts(h, m);
    FixedShapes();
    forall e <- Edges(m) ensures EdgeShape(e) { ShapeOfEdge(h, m, e); }
    ShapeOfFour(h, Sample(m), m);
  }

  lemma SampleParts(h: Host, m: Node)
    requires Captures(m) && Configured(h, m)
    ensures Sample(m).nodes == [FIRST, m, QUESTION, LAST] && Sample(m).edges == Edges(m) && |Edges(m)| <= 12
  {
    PortsAreDistinct(h, m);
    hide Configured, FlowPorts;
  }

  lemma FixedShapes()
    ensures NodeShape(FIRST) && NodeShape(QUESTION) && NodeShape(LAST)
  {
  }

  lemma ShapeOfEdge(h: Host, m: Node, e: Edge)
    requires Captures(m) && Configured(h, m) && e in Edges(m)
    ensures EdgeShape(e)
  {
    PortsAreDistinct(h, m);
    EdgeOf(m, e);
    hide Configured, FlowPorts, Edges;
  }

  lemma ShapeOfFour(h: Host, g: Graph, m: Node)
    requires g.nodes == [FIRST, m, QUESTION, LAST] && |g.edges| <= 12
    requires NodeShape(FIRST) && NodeShape(QUESTION) && NodeShape(LAST) && forall e <- g.edges :: EdgeShape(e)
    ensures Shape(h, g) <==> NodeShape(m) && h.withinBounds(g)
  {
    assert g.nodes[1] == m;
    hide NodeShape, EdgeShape;
  }
}
