/**
 What an empty comparison promises. Graphs that differ only in the order of their blocks and connections are valid
 together and answer every request alike. Graphs without a listed change differ in validity only by the configuration
 of single blocks, and answer alike if the texts they read are ones that JSON can express.
 */
module DiffExecution {
  import opened Json
  import opened FlowGraph
  import opened GraphSearch
  import opened FlowValidator
  import opened FlowExecutor
  import opened FlowReading
  import opened Canonical
  import opened DiffReading
  import opened GraphDiff

  ghost predicate UniqueIds(g: Graph) {
    Distinct(IdsOf(g.nodes)) && Distinct(EdgeIdsOf(g.edges))
  }

  /** The same blocks and connections, in any order. */
  ghost predicate SameParts(a: Graph, b: Graph) {
    && (forall n :: n in a.nodes <==> n in b.nodes)
    && (forall e :: e in a.edges <==> e in b.edges)
  }

  lemma NodeMapHolds(nodes: seq<Node>, n: Node)
    requires Distinct(IdsOf(nodes))
    ensures n in nodes <==> n.id in NodeMap(nodes) && NodeMap(nodes)[n.id] == n
  {
    if n in nodes {
      FindIsUnique(nodes, n);
      FindIsUnique(nodes, NodeMap(nodes)[n.id]);
    }
  }

  lemma EdgeIdIsUnique(edges: seq<Edge>, e: Edge, f: Edge)
    requires Distinct(EdgeIdsOf(edges)) && e in edges && f in edges && e.id == f.id
    ensures e == f
  {
    var i :| 0 <= i < |edges| && edges[i] == e;
    var j :| 0 <= j < |edges| && edges[j] == f;
    assert EdgeIdsOf(edges)[i] == EdgeIdsOf(edges)[j];
  }

  lemma EdgeMapHolds(edges: seq<Edge>, e: Edge)
    requires Distinct(EdgeIdsOf(edges))
    ensures e in edges <==> e.id in EdgeMap(edges) && EdgeMap(edges)[e.id] == e
  {
    if e in edges { EdgeIdIsUnique(edges, e, EdgeMap(edges)[e.id]); }
  }

  lemma SameNodeMapsIff(a: seq<Node>, b: seq<Node>)
    requires Distinct(IdsOf(a)) && Distinct(IdsOf(b))
    ensures NodeMap(a) == NodeMap(b) <==> forall n :: n in a <==> n in b
  {
    hide Distinct, NodeMap;
    forall n ensures n in a <==> n.id in NodeMap(a) && NodeMap(a)[n.id] == n { NodeMapHolds(a, n); }
    forall n ensures n in b <==> n.id in NodeMap(b) && NodeMap(b)[n.id] == n { NodeMapHolds(b, n); }
  }

  lemma SameEdgeMapsIff(a: seq<Edge>, b: seq<Edge>)
    requires Distinct(EdgeIdsOf(a)) && Distinct(EdgeIdsOf(b))
    ensures EdgeMap(a) == EdgeMap(b) <==> forall e :: e in a <==> e in b
  {
    hide Distinct, EdgeMap;
    forall e ensures e in a <==> e.id in EdgeMap(a) && EdgeMap(a)[e.id] == e { EdgeMapHolds(a, e); }
    forall e ensures e in b <==> e.id in EdgeMap(b) && EdgeMap(b)[e.id] == e { EdgeMapHolds(b, e); }
  }

  /** For graphs with unique ids, equal maps are equal sets of blocks and of connections. */
  lemma SameMapsIffSameParts(a: Graph, b: Graph)
    requires UniqueIds(a) && UniqueIds(b)
    ensures NodeMap(a.nodes) == NodeMap(b.nodes) && EdgeMap(a.edges) == EdgeMap(b.edges) <==> SameParts(a, b)
  {
    hide Distinct, NodeMap, EdgeMap;
    SameNodeMapsIff(a.nodes, b.nodes);
    SameEdgeMapsIff(a.edges, b.edges);
  }

  // ----- lookups do not see the order -----

  lemma SameFindNode(a: Graph, b: Graph, id: string)
    requires UniqueIds(a) && UniqueIds(b) && SameParts(a, b)
    ensures FindNode(a.nodes, id) == FindNode(b.nodes, id)
  {
    hide Distinct;
    var n := FindNode(a.nodes, id);
    if n.Some? { FindIsUnique(b.nodes, n.value); }
  }

  lemma OutputIsUnique(edges: seq<Edge>, e: Edge, f: Edge)
    requires OutputsFunctional(edges) && e in edges && f in edges && e.source == f.source && e.port == f.port
    ensures e == f
  {
    var i :| 0 <= i < |edges| && edges[i] == e;
    var j :| 0 <= j < |edges| && edges[j] == f;
  }

  lemma SameFindEdge(a: Graph, b: Graph, source: string, port: string)
    requires OutputsFunctional(a.edges) && SameParts(a, b)
    ensures FindEdge(a.edges, source, port) == FindEdge(b.edges, source, port)
  {
    hide OutputsFunctional;
    var e, f := FindEdge(a.edges, source, port), FindEdge(b.edges, source, port);
    if e.Some? && f.Some? { OutputIsUnique(a.edges, e.value, f.value); }
  }

  lemma OneStartIsUnique(nodes: seq<Node>, m: Node, n: Node)
    requires OneStart(nodes) && m in nodes && n in nodes && m.kind == Start && n.kind == Start
    ensures m == n
  {
    var i :| 0 <= i < |nodes| && nodes[i] == m;
    var j :| 0 <= j < |nodes| && nodes[j] == n;
  }

  lemma SameStart(a: Graph, b: Graph)
    requires OneStart(a.nodes) && SameParts(a, b)
    ensures StartId(a) == StartId(b)
  {
    hide OneStart;
    var m, n := FindKind(a.nodes, Start), FindKind(b.nodes, Start);
    if m.Some? && n.Some? { OneStartIsUnique(a.nodes, m.value, n.value); }
  }

  // ----- soundness does not see the order -----

  lemma SameOneStart(a: Graph, b: Graph)
    requires OneStart(a.nodes) && UniqueIds(b) && SameParts(a, b)
    ensures OneStart(b.nodes)
  {
    var i :| 0 <= i < |a.nodes| && a.nodes[i].kind == Start;
    assert a.nodes[i] in b.nodes;
    var k :| 0 <= k < |b.nodes| && b.nodes[k] == a.nodes[i];
    forall j | 0 <= j < |b.nodes| && b.nodes[j].kind == Start ensures j == k {
      assert b.nodes[j] in a.nodes;
      OneStartIsUnique(a.nodes, a.nodes[i], b.nodes[j]);
      assert IdsOf(b.nodes)[j] == IdsOf(b.nodes)[k];
    }
  }

  lemma SameOutputs(a: Graph, b: Graph)
    requires OutputsFunctional(a.edges) && UniqueIds(b) && SameParts(a, b)
    ensures OutputsFunctional(b.edges)
  {
    forall i, j | 0 <= i < j < |b.edges|
      ensures b.edges[i].source != b.edges[j].source || b.edges[i].port != b.edges[j].port
    {
      assert b.edges[i] in a.edges && b.edges[j] in a.edges;
      assert EdgeIdsOf(b.edges)[i] != EdgeIdsOf(b.edges)[j];
      if b.edges[i].source == b.edges[j].source && b.edges[i].port == b.edges[j].port {
        OutputIsUnique(a.edges, b.edges[i], b.edges[j]);
      }
    }
  }

  lemma SameReach(a: Graph, b: Graph, cut: set<string>, x: string, y: string)
    requires SameParts(a, b)
    ensures Reaches(a.edges, cut, x, y) ==> Reaches(b.edges, cut, x, y)
    ensures Leads(a.edges, cut, x, y) ==> Leads(b.edges, cut, x, y)
  {
    assert forall p, q :: Link(a.edges, cut, p, q) ==> Link(b.edges, cut, p, q);
    hide Link;
    assert forall p :: PathBetween(a.edges, cut, p, x, y) ==> PathBetween(b.edges, cut, p, x, y);
  }

  lemma SameWaiting(a: Graph, b: Graph)
    requires UniqueIds(a) && UniqueIds(b) && SameParts(a, b)
    ensures WaitingIds(a) == WaitingIds(b)
  {
    hide UniqueIds;
    forall id ensures FindNode(a.nodes, id) == FindNode(b.nodes, id) { SameFindNode(a, b, id); }
  }

  lemma SameNodeIds(a: Graph, b: Graph)
    requires SameParts(a, b)
    ensures NodeIds(a.nodes) == NodeIds(b.nodes)
  {
  }

  lemma SameNodeLegal(h: Host, a: Graph, b: Graph, n: Node)
    requires SameParts(a, b) && NodeLegal(h, a, n)
    ensures NodeLegal(h, b, n)
  {
    hide Configured, FlowPorts;
    forall port <- FlowPorts(n) ensures Connected(b.edges, n.id, port) { assert Connected(a.edges, n.id, port); }
  }

  /** Reordering keeps a flow well formed. */
  lemma SamePartsStaySound(h: Host, a: Graph, b: Graph)
    requires Sound(h, a) && UniqueIds(b) && SameParts(a, b)
    ensures Sound(h, b)
  {
    hide Distinct, OneStart, OutputsFunctional, NodeLegal, Leads, WaitingIds, Reaches, StartId, FlowPorts;
    SameOneStart(a, b);
    SameOutputs(a, b);
    SameNodeIds(a, b);
    SameStart(a, b);
    SameWaiting(a, b);
    forall id ensures FindNode(a.nodes, id) == FindNode(b.nodes, id) { SameFindNode(a, b, id); }
    forall e <- b.edges ensures EdgeLegal(b, e) { assert EdgeLegal(a, e); }
    forall n <- b.nodes ensures NodeLegal(h, b, n) && ReachableFromStart(b, n.id) {
      SameNodeLegal(h, a, b, n);
      assert ReachableFromStart(a, n.id);
      SameReach(a, b, {}, StartId(a).value, n.id);
    }
    forall x ensures !Leads(b.edges, WaitingIds(b), x, x) { SameReach(b, a, WaitingIds(b), x, x); }
  }

  // ----- execution does not see the order -----

  lemma {:induction false} SameRun(h: Host, a: Graph, b: Graph, turn: nat, current: string, p: Progress)
    requires UniqueIds(a) && UniqueIds(b) && OutputsFunctional(a.edges) && SameParts(a, b)
    ensures Run(h, a, turn, current, p) == Run(h, b, turn, current, p)
    decreases TURNS - turn
  {
    hide UniqueIds, OutputsFunctional, SameParts, Pass, PortTaken, PauseAt, Enter;
    SameFindNode(a, b, current);
    var found := FindNode(a.nodes, current);
    if turn < TURNS && p.steps + 1 <= MAX_STEPS && found.Some? && !Pauses(found.value.kind) {
      var n := found.value;
      var passed := Pass(n, Enter(n, p));
      var port := PortTaken(h, n, passed.variables);
      SameFindEdge(a, b, n.id, port);
      var e := FindEdge(a.edges, n.id, port);
      if e.Some? { SameRun(h, a, b, turn + 1, e.value.target, passed); }
    }
  }

  lemma SameFollow(h: Host, a: Graph, b: Graph, id: string, port: string, p: Progress)
    requires UniqueIds(a) && UniqueIds(b) && OutputsFunctional(a.edges) && SameParts(a, b)
    ensures Follow(h, a, id, port, p) == Follow(h, b, id, port, p)
  {
    hide UniqueIds, OutputsFunctional, SameParts, Run;
    SameFindEdge(a, b, id, port);
    var e := FindEdge(a.edges, id, port);
    if e.Some? { SameRun(h, a, b, 0, e.value.target, p); }
  }

  lemma SameExecution(h: Host, a: Graph, b: Graph, request: Request)
    requires UniqueIds(a) && UniqueIds(b) && OutputsFunctional(a.edges) && OneStart(a.nodes) && SameParts(a, b)
    ensures ExecuteValid(h, a, request) == ExecuteValid(h, b, request)
  {
    hide UniqueIds, OutputsFunctional, OneStart, SameParts, Run, Follow, StartId, InitialVariables;
    SameStart(a, b);
    var p := Opening(request);
    var current :=
      if request.state.Some? && request.state.value.nodeId.Some? then request.state.value.nodeId else StartId(a);
    if current.Some? {
      SameRun(h, a, b, 0, current.value, p);
      SameFindNode(a, b, current.value);
      var n := FindNode(a.nodes, current.value);
      if n.Some? {
        SameFollow(h, a, b, n.value.id, "next",
          p.(variables := p.variables[ValueText(Field(n.value.data, "variable")) := Take(request.text, 4096)]));
        var option := FindOption(MenuOptions(n.value), Trim(request.text));
        if option.Some? {
          var name := ValueText(Field(n.value.data, "variable"));
          SameFollow(h, a, b, n.value.id, OptionPort(option.value),
                     p.(variables := p.variables[(if name == "" then "menu.choice" else name) := Trim(request.text)]));
        }
      }
    }
  }

  // ----- the same writing -----

  /** The blocks of `before`, in the order of `after`. */
  function Reordered(before: Graph, after: Graph): (g: Graph)
    requires NodeIds(before.nodes) == NodeIds(after.nodes)
    ensures g.edges == after.edges && |g.nodes| == |after.nodes|
    ensures forall i | 0 <= i < |g.nodes| :: g.nodes[i] in before.nodes && g.nodes[i].id == after.nodes[i].id
  {
    Graph(seq(|after.nodes|, i requires 0 <= i < |after.nodes| =>
            assert after.nodes[i].id in NodeIds(after.nodes);
            NodeMap(before.nodes)[after.nodes[i].id]),
          after.edges)
  }

  lemma ReorderedParts(before: Graph, after: Graph)
    requires NodeIds(before.nodes) == NodeIds(after.nodes) && EdgeMap(before.edges) == EdgeMap(after.edges)
    requires UniqueIds(before) && UniqueIds(after)
    ensures SameParts(before, Reordered(before, after)) && UniqueIds(Reordered(before, after))
  {
    var g := Reordered(before, after);
    assert IdsOf(g.nodes) == IdsOf(after.nodes);
    SameEdgeMapsIff(before.edges, after.edges);
    hide EdgeMap, Reordered, NodeMap;
    forall n <- before.nodes ensures n in g.nodes {
      assert n.id in NodeIds(after.nodes);
      var i :| 0 <= i < |after.nodes| && after.nodes[i].id == n.id;
      FindIsUnique(before.nodes, n);
      FindIsUnique(before.nodes, g.nodes[i]);
    }
    hide Distinct;
  }

  lemma SameWritingAt(before: Graph, after: Graph, l: Node, r: Node)
    requires Distinct(IdsOf(before.nodes)) && Distinct(IdsOf(after.nodes))
    requires WrittenBlocks(before) == WrittenBlocks(after)
    requires l in before.nodes && r in after.nodes && l.id == r.id
    ensures Written(NodeJson(l)) == Written(NodeJson(r))
  {
    NodeMapHolds(before.nodes, l);
    NodeMapHolds(after.nodes, r);
    hide Distinct, NodeMap, Written, NodeJson;
    assert WrittenBlocks(before)[l.id] == WrittenBlocks(after)[l.id];
  }

  lemma SameWritingIds(before: Graph, after: Graph)
    requires WrittenBlocks(before) == WrittenBlocks(after)
    ensures NodeIds(before.nodes) == NodeIds(after.nodes)
  {
    assert NodeMap(before.nodes).Keys == WrittenBlocks(before).Keys == WrittenBlocks(after).Keys
      == NodeMap(after.nodes).Keys;
  }

  /** A reordering of the first graph that is written like the second, block by block. */
  ghost predicate WrittenLike(before: Graph, between: Graph, after: Graph) {
    && SameParts(before, between) && UniqueIds(between)
    && between.edges == after.edges && |between.nodes| == |after.nodes|
    && forall i | 0 <= i < |after.nodes| ::
         between.nodes[i] in before.nodes && Written(NodeJson(between.nodes[i])) == Written(NodeJson(after.nodes[i]))
  }

  lemma EmptyDiffReorders(o: Orders, before: Graph, after: Graph) returns (between: Graph)
    requires Sorts(o.ids) && Sorts(o.keys) && UniqueIds(before) && UniqueIds(after) && Changes(o, before, after) == []
    ensures WrittenLike(before, between, after)
  {
    NoChangesMeansSameWriting(o, before, after);
    hide Sorts, Changes, SameParts, EdgeMap, Reordered, WrittenBlocks, NodeIds, Distinct, Written, NodeJson;
    SameWritingIds(before, after);
    between := Reordered(before, after);
    ReorderedParts(before, after);
    forall i | 0 <= i < |after.nodes| ensures Written(NodeJson(between.nodes[i])) == Written(NodeJson(after.nodes[i])) {
      SameWritingAt(before, after, between.nodes[i], after.nodes[i]);
    }
  }

  lemma WrittenLikeSkeleton(h: Host, before: Graph, between: Graph, after: Graph)
    requires WrittenLike(before, between, after)
    requires (forall n <- before.nodes :: Configured(h, n)) && (forall n <- after.nodes :: Configured(h, n))
    ensures SameSkeleton(between, after)
  {
    hide Configured, Written, NodeJson, FlowPorts, SameParts, UniqueIds;
    forall i | 0 <= i < |after.nodes|
      ensures FlowPorts(between.nodes[i]) == FlowPorts(after.nodes[i])
      ensures between.nodes[i].id == after.nodes[i].id && between.nodes[i].kind == after.nodes[i].kind
    {
      WrittenAlikeIff(between.nodes[i], after.nodes[i]);
      SamePortsWhenConfigured(h, between.nodes[i], after.nodes[i]);
    }
  }

  lemma WrittenLikeRuns(h: Host, before: Graph, between: Graph, after: Graph)
    requires WrittenLike(before, between, after)
    requires (forall n <- before.nodes :: Configured(h, n)) && (forall n <- after.nodes :: Configured(h, n))
    requires forall n <- before.nodes + after.nodes :: RunsFinite(n)
    ensures SameRunning(between, after)
  {
    hide Configured, Written, NodeJson, SameParts, UniqueIds, RunsFinite, RunsAlike;
    forall i | 0 <= i < |after.nodes| ensures RunsAlike(between.nodes[i], after.nodes[i]) {
      RunsAlikeIff(h, between.nodes[i], after.nodes[i]);
    }
  }

  // ----- what an empty comparison promises -----

  /**
   Nothing is reported as changed and the first graph is well formed: the second graph is well formed too if and only if
   it fits the schema, its ids are unique, and each of its blocks is configured.
   */
  lemma ValidTogetherIff(o: Orders, h: Host, before: Graph, after: Graph)
    requires Sorts(o.ids) && Sorts(o.keys) && Changes(o, before, after) == [] && WellFormed(h, before)
    ensures WellFormed(h, after) <==> Shape(h, after) && UniqueIds(after) && forall n <- after.nodes :: Configured(h, n)
  {
    hide *;
    WellFormedIs(h, before);
    WellFormedIs(h, after);
    if Sound(h, after) {
      SoundIsConfigured(h, after);
    } else if UniqueIds(after) && forall n <- after.nodes :: Configured(h, n) {
      var between := EmptyDiffReorders(o, before, after);
      SoundIsConfigured(h, before);
      WrittenLikeSkeleton(h, before, between, after);
      ReorderedIsSound(h, before, between, after);
      SkeletonSoundIff(h, between, after);
    }
  }

  lemma ReorderedIsSound(h: Host, before: Graph, between: Graph, after: Graph)
    requires Sound(h, before) && WrittenLike(before, between, after)
    ensures Sound(h, between)
  {
    hide Sound, SameParts, UniqueIds, Written, NodeJson;
    SamePartsStaySound(h, before, between);
  }

  lemma WellFormedIs(h: Host, g: Graph)
    ensures WellFormed(h, g) <==> Shape(h, g) && Sound(h, g)
    ensures Sound(h, g) ==> UniqueIds(g)
  {
    hide Shape, Distinct, OneStart, OutputsFunctional, EdgeLegal, NodeLegal, ReachableFromStart, Leads;
  }

  /**
   Two well-formed graphs without a reported change answer every request alike, if the texts that a run reads are not
   numbers that JSON cannot express.
   */
  lemma EmptyDiffMeansSameBehaviour(o: Orders, h: Host, before: Graph, after: Graph)
    requires Sorts(o.ids) && Sorts(o.keys) && Changes(o, before, after) == []
    requires WellFormed(h, before) && WellFormed(h, after)
    requires forall n <- before.nodes + after.nodes :: RunsFinite(n)
    ensures forall request :: Execute(h, before, request) == Execute(h, after, request)
  {
    assert UniqueIds(before) && OutputsFunctional(before.edges) && OneStart(before.nodes) && Sound(h, before);
    assert UniqueIds(after) && Sound(h, after);
    NoErrorsIsWellFormed(h, before);
    NoErrorsIsWellFormed(h, after);
    hide Sorts, Changes, WellFormed, SameParts, FlowErrors, ExecuteValid, UniqueIds, Sound, RunsFinite, OneStart,
         OutputsFunctional, SameRunning, Configured, Written, NodeJson;
    var between := EmptyDiffReorders(o, before, after);
    SoundIsConfigured(h, before);
    SoundIsConfigured(h, after);
    WrittenLikeRuns(h, before, between, after);
    forall request ensures ExecuteValid(h, before, request) == ExecuteValid(h, after, request) {
      SameExecution(h, before, between, request);
      SameRunningAnswersAlike(h, between, after, request);
    }
  }
}
