/**
 The hundred-turn limit of a message is reachable, because validation admits up to 150 blocks: a straight chain of
 n blocks is well formed for every n from 2 to 150, and answers a message exactly when n is at most 100.
 */
module TurnLimitChain {
  import opened Wrappers
  import opened Json
  import opened FlowGraph
  import opened GraphSearch
  import opened FlowValidator
  import opened FlowExecutor

  function Name(i: nat): (id: string)
    requires i < 150
    ensures |id| == 2
  {
    [('a' as int + i / 26) as char, ('a' as int + i % 26) as char]
  }

  lemma NamesDiffer(i: nat, j: nat)
    requires i < 150 && j < 150 && i != j
    ensures Name(i) != Name(j)
  {
    assert i / 26 != j / 26 || i % 26 != j % 26;
    assert Name(i)[0] != Name(j)[0] || Name(i)[1] != Name(j)[1];
  }

  function Block(n: nat, i: nat): (b: Node)
    requires i < n <= 150
    ensures b.id == Name(i) && (b.kind == Start <==> i == 0)
  {
    var kind := if i == 0 then Start else if i == n - 1 then End else Message;
    Node(Name(i), kind, "", Position("0", "0"), map["text" := Str("x")])
  }

  function Chain(n: nat): Graph
    requires 2 <= n <= 150
  {
    Graph(seq(n, i requires 0 <= i < n => Block(n, i)),
          seq(n - 1, i requires 0 <= i < n - 1 => Edge(Name(i), Name(i), Name(i + 1), "next")))
  }

  lemma ChainIds(n: nat)
    requires 2 <= n <= 150
    ensures Distinct(IdsOf(Chain(n).nodes)) && Distinct(EdgeIdsOf(Chain(n).edges))
    ensures OutputsFunctional(Chain(n).edges)
  {
    hide Block, Name;
    forall i: nat, j: nat | i < j < n ensures Name(i) != Name(j) { NamesDiffer(i, j); }
  }

  lemma ChainEnds(n: nat)
    requires 2 <= n <= 150
    ensures OneStart(Chain(n).nodes) && EndpointsExist(Chain(n))
  {
    hide Block, Name;
    var g := Chain(n);
    assert g.nodes[0].kind == Start;
    forall e <- g.edges ensures e.source in NodeIds(g.nodes) && e.target in NodeIds(g.nodes) {
      var i :| 0 <= i < n - 1 && g.edges[i] == e;
      assert g.nodes[i] in g.nodes && g.nodes[i + 1] in g.nodes;
    }
  }

  lemma BlockIsFound(n: nat, i: nat)
    requires 2 <= n <= 150 && i < n
    ensures FindNode(Chain(n).nodes, Name(i)) == Some(Block(n, i))
  {
    ChainIds(n);
    assert Chain(n).nodes[i] == Block(n, i);
    FindIsUnique(Chain(n).nodes, Block(n, i));
  }

  lemma ChainEdgeIsLegal(n: nat, i: nat)
    requires 2 <= n <= 150 && i < n - 1
    ensures EdgeLegal(Chain(n), Edge(Name(i), Name(i), Name(i + 1), "next"))
  {
    hide Chain, FindNode, Name;
    BlockIsFound(n, i);
    BlockIsFound(n, i + 1);
  }

  lemma ChainBlockIsLegal(h: Host, n: nat, i: nat)
    requires 2 <= n <= 150 && i < n
    ensures NodeLegal(h, Chain(n), Block(n, i))
  {
    hide Name;
    assert TrimEnd("x") == "x" && Trim("x") == "x";
    if i < n - 1 {
      assert Chain(n).edges[i] in Chain(n).edges;
      assert Connected(Chain(n).edges, Name(i), "next");
    }
  }

  lemma ChainIsLegal(h: Host, n: nat)
    requires 2 <= n <= 150
    ensures forall e <- Chain(n).edges :: EdgeLegal(Chain(n), e)
    ensures forall b <- Chain(n).nodes :: NodeLegal(h, Chain(n), b)
  {
    hide EdgeLegal, NodeLegal, Name, Block;
    forall e <- Chain(n).edges ensures EdgeLegal(Chain(n), e) {
      var i :| 0 <= i < n - 1 && Chain(n).edges[i] == e;
      ChainEdgeIsLegal(n, i);
    }
    forall b <- Chain(n).nodes ensures NodeLegal(h, Chain(n), b) {
      var i :| 0 <= i < n && Chain(n).nodes[i] == b;
      ChainBlockIsLegal(h, n, i);
    }
  }

  lemma ChainLink(n: nat, i: nat)
    requires 2 <= n <= 150 && i < n - 1
    ensures Link(Chain(n).edges, {}, Name(i), Name(i + 1))
  {
    assert Chain(n).edges[i] in Chain(n).edges;
  }

  lemma {:induction false} ChainIsReached(n: nat, i: nat)
    requires 2 <= n <= 150 && i < n
    ensures Reaches(Chain(n).edges, {}, Name(0), Name(i))
  {
    if i == 0 {
      ReachesItself(Chain(n).edges, {}, Name(0));
    } else {
      ChainIsReached(n, i - 1);
      ChainLink(n, i - 1);
      ReachesThenLink(Chain(n).edges, {}, Name(0), Name(i - 1), Name(i));
    }
  }

  function Backward(n: nat): (order: seq<string>)
    requires n <= 150
    ensures |order| == n && forall i | 0 <= i < n :: order[i] == Name(n - 1 - i)
  {
    seq(n, i requires 0 <= i < n => Name(n - 1 - i))
  }

  lemma BackwardIsFinishing(n: nat, cut: set<string>)
    requires 2 <= n <= 150
    ensures Backwards(Chain(n).edges, cut, Backward(n))
  {
    hide Name, Block, Backward;
    var edges, order := Chain(n).edges, Backward(n);
    forall i, j | 0 <= i < j < n ensures order[i] != order[j] { NamesDiffer(n - 1 - i, n - 1 - j); }
    forall i, y | 0 <= i < n && Link(edges, cut, order[i], y) ensures y in order[..i] {
      var e :| e in edges && e.source == order[i] && e.target == y;
      var k :| 0 <= k < n - 1 && edges[k] == e;
      if k != n - 1 - i { NamesDiffer(k, n - 1 - i); }
      assert order[..i][i - 1] == Name(k + 1);
    }
  }

  lemma ChainIsAcyclic(n: nat, cut: set<string>)
    requires 2 <= n <= 150
    ensures !(exists x :: Leads(Chain(n).edges, cut, x, x))
  {
    hide Leads, CycleFrom, Name, Block, Backwards, Backward;
    var g := Chain(n);
    BackwardIsFinishing(n, cut);
    ChainEnds(n);
    forall id <- NodeIds(g.nodes) ensures !CycleFrom(g.edges, cut, id) {
      var b :| b in g.nodes && b.id == id;
      var i :| 0 <= i < n && g.nodes[i] == b;
      assert Backward(n)[n - 1 - i] == id;
      BackwardsIsAcyclic(g.edges, cut, Backward(n), id);
    }
    CycleCheckIsComplete(g.edges, cut, NodeIds(g.nodes));
  }

  lemma ChainFits(h: Host, n: nat)
    requires 2 <= n <= 150 && h.withinBounds(Chain(n))
    ensures Shape(h, Chain(n))
  {
    hide Name, Block;
    forall b <- Chain(n).nodes ensures NodeShape(b) {
      var i :| 0 <= i < n && Chain(n).nodes[i] == b;
      BlockShape(n, i);
    }
    forall e <- Chain(n).edges ensures EdgeShape(e) {
      var i :| 0 <= i < n - 1 && Chain(n).edges[i] == e;
      LinkShape(i);
    }
  }

  lemma LinkShape(i: nat)
    requires i < 149
    ensures EdgeShape(Edge(Name(i), Name(i), Name(i + 1), "next"))
  {
    hide Name;
  }

  lemma BlockShape(n: nat, i: nat)
    requires i < n <= 150
    ensures NodeShape(Block(n, i))
  {
    hide Name;
    assert forall key <- Block(n, i).data :: key == "text";
  }

  lemma ChainStart(n: nat)
    requires 2 <= n <= 150
    ensures StartId(Chain(n)) == Some(Name(0))
  {
    assert Chain(n).nodes[0] == Block(n, 0);
    assert FindKind(Chain(n).nodes, Start) == Some(Block(n, 0));
  }

  lemma ChainIsReachable(n: nat)
    requires 2 <= n <= 150
    ensures forall b <- Chain(n).nodes :: ReachableFromStart(Chain(n), b.id)
  {
    hide StartId, Reaches, Name, Block;
    ChainStart(n);
    forall b <- Chain(n).nodes ensures ReachableFromStart(Chain(n), b.id) {
      var i :| 0 <= i < n && Chain(n).nodes[i] == b;
      ChainIsReached(n, i);
    }
  }

  lemma ChainIsWellFormed(h: Host, n: nat)
    requires 2 <= n <= 150 && h.withinBounds(Chain(n))
    ensures WellFormed(h, Chain(n)) && StartId(Chain(n)) == Some(Name(0))
  {
    ChainFits(h, n);
    ChainStart(n);
    hide Shape, StartId, Leads, ReachableFromStart, NodeLegal, EdgeLegal, OneStart, EndpointsExist, OutputsFunctional,
         Distinct, WaitingIds, Name, Block, IdsOf, EdgeIdsOf, Chain;
    ChainIds(n);
    ChainEnds(n);
    ChainIsLegal(h, n);
    ChainIsAcyclic(n, WaitingIds(Chain(n)));
    ChainIsReachable(n);
  }

  lemma {:induction false} ChainRun(h: Host, n: nat, k: nat, p: Progress)
    requires 2 <= n <= 150 && k < n && k <= TURNS && p.steps == k && |p.trace| == k
    ensures var o := Run(h, Chain(n), k, Name(k), p);
      if n <= TURNS then o.Returned? && o.result.state.status == Completed && |o.result.trace| == n
      else o == Thrown(TurnLimit)
    decreases n - k
  {
    hide Chain, FindNode, FindEdge, Block, Name, Pass, PortTaken, PauseAt;
    if k < TURNS {
      BlockIsFound(n, k);
      var entered := Enter(Block(n, k), p);
      BlockRuns(h, n, k, entered);
      if k < n - 1 {
        NextBlock(n, k);
        ChainRun(h, n, k + 1, Pass(Block(n, k), entered));
      }
    }
  }

  lemma BlockRuns(h: Host, n: nat, k: nat, p: Progress)
    requires 2 <= n <= 150 && k < n
    ensures var b := Block(n, k);
      if k == n - 1 then
        Pauses(b.kind) && PauseAt(b, p) == Pause(Completed, None, p)
      else
        && !Pauses(b.kind) && PortTaken(h, b, Pass(b, p).variables) == "next"
        && Pass(b, p).steps == p.steps && Pass(b, p).trace == p.trace
  {
    hide RenderFlowText;
  }

  lemma NextBlock(n: nat, k: nat)
    requires 2 <= n <= 150 && k < n - 1
    ensures FindEdge(Chain(n).edges, Name(k), "next") == Some(Edge(Name(k), Name(k), Name(k + 1), "next"))
  {
    var g := Chain(n);
    assert g.edges[k] in g.edges;
    var e := FindEdge(g.edges, Name(k), "next").value;
    var j :| 0 <= j < n - 1 && g.edges[j] == e;
    if j != k { NamesDiffer(j, k); }
  }

  /** A well-formed chain answers its first message if and only if it has at most a hundred blocks. */
  lemma ChainAnswersIffShort(h: Host, n: nat, text: string)
    requires 2 <= n <= 150 && h.withinBounds(Chain(n))
    ensures WellFormed(h, Chain(n))
    ensures Execute(h, Chain(n), Request(text, None, None)) == Thrown(TurnLimit) <==> n > 100
    ensures n <= 100 ==> Execute(h, Chain(n), Request(text, None, None)).Returned?
  {
    hide WellFormed, Run, FlowErrors, InitialVariables;
    ChainIsWellFormed(h, n);
    NoErrorsIsWellFormed(h, Chain(n));
    ChainRun(h, n, 0, Opening(Request(text, None, None)));
  }
}
