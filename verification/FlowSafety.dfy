/**
 What validation buys at run time: a well-formed flow never crashes its interpreter, one message visits no
 block twice, and only flows of more than a hundred blocks can exhaust the hundred turns of a message.
 */
module FlowSafety {
  import opened Wrappers
  import opened Json
  import opened FlowGraph
  import opened GraphSearch
  import opened FlowValidator
  import opened FlowExecutor

  // ----- graph facts -----

  lemma FoundIfListed(nodes: seq<Node>, id: string)
    requires id in NodeIds(nodes)
    ensures FindNode(nodes, id).Some?
  {
    var n :| n in nodes && n.id == id;
  }

  lemma StartIdExists(g: Graph)
    requires OneStart(g.nodes)
    ensures StartId(g).Some? && StartId(g).value in NodeIds(g.nodes)
  {
    var i :| 0 <= i < |g.nodes| && g.nodes[i].kind == Start;
    assert g.nodes[i] in g.nodes;
  }

  /** In a well-formed flow each output of a block leads to an existing block. */
  lemma OutputLeads(h: Host, g: Graph, n: Node, port: string)
    requires Sound(h, g) && n in g.nodes && port in FlowPorts(n)
    ensures FindEdge(g.edges, n.id, port).Some?
    ensures FindEdge(g.edges, n.id, port).value.target in NodeIds(g.nodes)
  {
    hide EdgeLegal, ReachableFromStart, Leads, Configured, FlowPorts;
    assert NodeLegal(h, g, n);
    var e :| e in g.edges && e.source == n.id && e.port == port;
    assert FindEdge(g.edges, n.id, port).Some?;
  }

  /** Without cycles, the blocks along a path are pairwise different. */
  lemma AcyclicPathIsDistinct(edges: seq<Edge>, cut: set<string>, p: seq<string>)
    requires IsPath(edges, cut, p) && !(exists x :: Leads(edges, cut, x, x))
    ensures Distinct(p)
  {
    forall i, j | 0 <= i < j < |p| ensures p[i] != p[j] {
      if p[i] == p[j] {
        assert PathBetween(edges, cut, p[i..j + 1], p[i], p[i]);
        assert Leads(edges, cut, p[i], p[i]);
      }
    }
  }

  lemma DistinctIdsFit(g: Graph, p: seq<string>)
    requires Distinct(p) && forall id <- p :: id in NodeIds(g.nodes)
    ensures |p| <= |g.nodes|
  {
    SetSizeIsDistinctness(p);
    SetSizeIsDistinctness(IdsOf(g.nodes));
    var all, seen := SetOf(IdsOf(g.nodes)), SetOf(p);
    forall id <- seen ensures id in all {
      var n :| n in g.nodes && n.id == id;
      var i :| 0 <= i < |g.nodes| && g.nodes[i] == n;
      assert IdsOf(g.nodes)[i] == id;
    }
    SubsetSize(seen, all);
  }

  lemma SubsetSize<T>(a: set<T>, b: set<T>)
    requires a <= b
    ensures |a| <= |b|
  {
    assert b == a + (b - a);
  }

  // ----- one message -----

  function TraceIds(trace: seq<Visit>): (ids: seq<string>)
    ensures |ids| == |trace| && forall i | 0 <= i < |ids| :: ids[i] == trace[i].nodeId
  {
    seq(|trace|, i requires 0 <= i < |trace| => trace[i].nodeId)
  }

  /** Existing blocks, joined by connections whose source does not capture a reply. */
  ghost predicate Trail(g: Graph, ids: seq<string>) {
    IsPath(g.edges, WaitingIds(g), ids) && forall id <- ids :: id in NodeIds(g.nodes)
  }

  /** A trace entry copies the block it names. */
  ghost predicate VisitOf(g: Graph, v: Visit) {
    var n := FindNode(g.nodes, v.nodeId);
    n.Some? && v == Visit(n.value.id, n.value.caption, n.value.kind)
  }

  /** A returned result describes a finished run over the trail it reports. */
  ghost predicate Reported(g: Graph, r: FlowResult) {
    var ids := TraceIds(r.trace);
    && Trail(g, ids)
    && Distinct(ids)
    && (forall v <- r.trace :: VisitOf(g, v))
    && (forall i | 0 <= i < |r.trace| - 1 :: !Pauses(r.trace[i].kind))
    && (match r.trace[|r.trace| - 1].kind
        case End => r.state.status == Completed && r.state.nodeId == None
        case Handoff => r.state.status == HandedOff && r.state.nodeId == None
        case Input => r.state.status == Waiting && r.state.nodeId == Some(ids[|ids| - 1])
        case Menu => r.state.status == Waiting && r.state.nodeId == Some(ids[|ids| - 1])
        case _ => false)
  }

  lemma OutputIsLink(h: Host, g: Graph, n: Node, port: string)
    requires Sound(h, g) && n in g.nodes && n.kind != Input && port in FlowPorts(n)
    ensures FindEdge(g.edges, n.id, port).Some?
    ensures var target := FindEdge(g.edges, n.id, port).value.target;
      target in NodeIds(g.nodes) && Link(g.edges, WaitingIds(g), n.id, target)
  {
    OutputLeads(h, g, n, port);
    FindIsUnique(g.nodes, n);
    hide Sound, FlowPorts;
    assert n.id !in WaitingIds(g);
  }

  lemma TrailGrows(g: Graph, shorter: seq<string>, target: string)
    requires Trail(g, shorter) && shorter != [] && target in NodeIds(g.nodes)
    requires Link(g.edges, WaitingIds(g), shorter[|shorter| - 1], target)
    ensures Trail(g, shorter + [target])
  {
    hide Link, WaitingIds, NodeIds;
    var longer := shorter + [target];
    forall i | 0 <= i < |longer| - 1 ensures Link(g.edges, WaitingIds(g), longer[i], longer[i + 1]) {
      if i < |shorter| - 1 { assert Link(g.edges, WaitingIds(g), shorter[i], shorter[i + 1]); }
    }
    assert forall id <- longer :: id in shorter || id == target;
  }

  lemma StepExtendsTrail(h: Host, g: Graph, n: Node, port: string, before: seq<string>)
    requires Sound(h, g) && n in g.nodes && n.kind != Input && port in FlowPorts(n)
    requires Trail(g, before + [n.id])
    ensures FindEdge(g.edges, n.id, port).Some?
    ensures Trail(g, before + [n.id] + [FindEdge(g.edges, n.id, port).value.target])
  {
    hide *;
    OutputIsLink(h, g, n, port);
    TrailGrows(g, before + [n.id], FindEdge(g.edges, n.id, port).value.target);
  }

  lemma TrailFits(h: Host, g: Graph, ids: seq<string>)
    requires Sound(h, g) && Trail(g, ids)
    ensures Distinct(ids) && |ids| <= |g.nodes|
  {
    AcyclicPathIsDistinct(g.edges, WaitingIds(g), ids);
    DistinctIdsFit(g, ids);
  }

  /** Some trail that begins with `prefix` has more than `bound` blocks, all of them different. */
  ghost predicate LongTrail(g: Graph, prefix: seq<string>, bound: int) {
    exists ids :: prefix <= ids && |ids| > bound && Distinct(ids) && Trail(g, ids)
  }

  /** Some connection out of a block leads to the beginning of such a trail. */
  ghost predicate LongTrailAfter(g: Graph, id: string, bound: int) {
    exists e <- g.edges :: e.source == id && LongTrail(g, [e.target], bound)
  }

  lemma LongTrailFits(h: Host, g: Graph, prefix: seq<string>, bound: int)
    requires Sound(h, g) && LongTrail(g, prefix, bound)
    ensures |g.nodes| > bound
  {
    hide Sound, Trail;
    var ids :| prefix <= ids && |ids| > bound && Distinct(ids) && Trail(g, ids);
    TrailFits(h, g, ids);
  }

  lemma LongTrailShortens(g: Graph, prefix: seq<string>, longer: seq<string>, bound: int)
    requires LongTrail(g, longer, bound) && prefix <= longer
    ensures LongTrail(g, prefix, bound)
  {
    hide Trail, Distinct;
  }

  /** The run from any point of a trail: no crash, and either a reported result or an exhausted budget. */
  lemma {:induction false} RunIsSafe(h: Host, g: Graph, turn: nat, current: string, p: Progress)
    requires Sound(h, g) && turn <= TURNS && |p.trace| == turn
    requires Trail(g, TraceIds(p.trace) + [current])
    requires forall v <- p.trace :: !Pauses(v.kind) && VisitOf(g, v)
    ensures match Run(h, g, turn, current, p)
            case Crashed => false
            case Returned(r) =>
              && Reported(g, r) && p.trace <= r.trace
              && r.state.steps + |p.trace| == p.steps + |r.trace| && r.state.steps <= MAX_STEPS
            case Thrown(TurnLimit) => LongTrail(g, TraceIds(p.trace) + [current], TURNS)
            case Thrown(failure) =>
              failure == StepLimit && LongTrail(g, TraceIds(p.trace) + [current], MAX_STEPS - p.steps + |p.trace|)
    decreases TURNS - turn
  {
    hide Sound, Trail, PauseAt, Pass, PortTaken, FlowPorts, LongTrail, Reported, Distinct;
    var ids := TraceIds(p.trace);
    TrailIsLong(h, g, ids + [current], TURNS);
    TrailIsLong(h, g, ids + [current], MAX_STEPS - p.steps + |p.trace|);
    if turn < TURNS && p.steps + 1 <= MAX_STEPS {
      assert current in NodeIds(g.nodes) by { LastIsListed(g, ids, current); }
      FoundIfListed(g.nodes, current);
      var n := FindNode(g.nodes, current).value;
      var entered := Enter(n, p);
      assert TraceIds(entered.trace) == ids + [n.id];
      if Pauses(n.kind) {
        PauseIsReported(h, g, n, p);
      } else {
        var passed := Pass(n, entered);
        PassKeepsCount(n, entered);
        var port := PortTaken(h, n, passed.variables);
        PortIsOffered(h, n, passed.variables);
        StepExtendsTrail(h, g, n, port, ids);
        var e := FindEdge(g.edges, n.id, port).value;
        RunIsSafe(h, g, turn + 1, e.target, passed);
        var o := Run(h, g, turn + 1, e.target, passed);
        assert ids + [current] <= ids + [n.id] + [e.target];
        if o == Thrown(TurnLimit) {
          LongTrailShortens(g, ids + [current], ids + [n.id] + [e.target], TURNS);
        } else if o.Thrown? {
          LongTrailShortens(g, ids + [current], ids + [n.id] + [e.target], MAX_STEPS - p.steps + |p.trace|);
        }
      }
    }
  }

  lemma TrailIsLong(h: Host, g: Graph, ids: seq<string>, bound: int)
    requires Sound(h, g) && Trail(g, ids)
    ensures |ids| > bound ==> LongTrail(g, ids, bound)
  {
    TrailFits(h, g, ids);
    hide Sound, Trail, Distinct;
  }

  lemma LastIsListed(g: Graph, ids: seq<string>, last: string)
    requires Trail(g, ids + [last])
    ensures last in NodeIds(g.nodes)
  {
    assert (ids + [last])[|ids|] == last;
  }

  lemma PassKeepsCount(n: Node, p: Progress)
    ensures Pass(n, p).trace == p.trace && Pass(n, p).steps == p.steps
  {
  }

  lemma PortIsOffered(h: Host, n: Node, variables: Variables)
    requires !Pauses(n.kind)
    ensures PortTaken(h, n, variables) in FlowPorts(n)
  {
  }

  lemma PauseIsReported(h: Host, g: Graph, n: Node, p: Progress)
    requires Sound(h, g) && n in g.nodes && Pauses(n.kind)
    requires Trail(g, TraceIds(p.trace) + [n.id])
    requires forall v <- p.trace :: !Pauses(v.kind) && VisitOf(g, v)
    ensures var o := PauseAt(n, Enter(n, p));
      && o.Returned? && Reported(g, o.result)
      && o.result.trace == p.trace + [Visit(n.id, n.caption, n.kind)]
      && o.result.state.steps == p.steps + 1
  {
    hide MenuPrompt, RenderFlowText, Sound;
    var r := PauseAt(n, Enter(n, p)).result;
    assert TraceIds(r.trace) == TraceIds(p.trace) + [n.id];
    TrailFits(h, g, TraceIds(r.trace));
    NodeIsFound(h, g, n);
  }

  lemma NodeIsFound(h: Host, g: Graph, n: Node)
    requires Sound(h, g) && n in g.nodes
    ensures FindNode(g.nodes, n.id) == Some(n)
  {
    FindIsUnique(g.nodes, n);
  }

  /** A run that starts at an existing block with nothing traced yet. */
  lemma FreshRunIsSafe(h: Host, g: Graph, current: string, p: Progress)
    requires Sound(h, g) && current in NodeIds(g.nodes) && p.trace == []
    ensures match Run(h, g, 0, current, p)
            case Crashed => false
            case Returned(r) =>
              r.trace != [] && Reported(g, r) && r.state.steps == p.steps + |r.trace| && r.state.steps <= MAX_STEPS
            case Thrown(TurnLimit) => LongTrail(g, [current], TURNS)
            case Thrown(failure) => failure == StepLimit && LongTrail(g, [current], MAX_STEPS - p.steps)
  {
    hide Run, Sound;
    assert TraceIds(p.trace) + [current] == [current];
    RunIsSafe(h, g, 0, current, p);
  }

  lemma ResumeIsSafe(h: Host, g: Graph, n: Node, text: string, p: Progress)
    requires Sound(h, g) && n in g.nodes && (n.kind == Input || n.kind == Menu) && p.trace == []
    ensures match Resume(h, g, n, text, p)
            case Crashed => false
            case Returned(r) =>
              || (r.trace == [] && r.state == FlowState(Waiting, Some(n.id), p.variables, p.steps))
              || (r.trace != [] && Reported(g, r) && r.state.steps == p.steps + |r.trace| && r.state.steps <= MAX_STEPS)
            case Thrown(TurnLimit) => LongTrailAfter(g, n.id, TURNS)
            case Thrown(failure) => failure == StepLimit && LongTrailAfter(g, n.id, MAX_STEPS - p.steps)
  {
    hide Run, Sound, Reported, LongTrail;
    if n.kind == Input {
      OutputLeads(h, g, n, "next");
      FreshRunIsSafe(h, g, FindEdge(g.edges, n.id, "next").value.target,
                     p.(variables := p.variables[ValueText(Field(n.data, "variable")) := Take(text, 4096)]));
    } else {
      var option := FindOption(MenuOptions(n), Trim(text));
      if option.Some? {
        var i :| 0 <= i < |MenuOptions(n)| && MenuOptions(n)[i] == option.value;
        assert OptionPorts(MenuOptions(n))[i] == OptionPort(option.value);
        OutputLeads(h, g, n, OptionPort(option.value));
        var name := ValueText(Field(n.data, "variable"));
        FreshRunIsSafe(h, g, FindEdge(g.edges, n.id, OptionPort(option.value)).value.target,
                       p.(variables := p.variables[(if name == "" then "menu.choice" else name) := Trim(text)]));
      }
    }
  }

  /** Whether a saved state names a block that can receive a reply. */
  ghost predicate WaitsAtCapture(g: Graph, state: FlowState) {
    && state.nodeId.Some?
    && FindNode(g.nodes, state.nodeId.value).Some?
    && (FindNode(g.nodes, state.nodeId.value).value.kind == Input
         || FindNode(g.nodes, state.nodeId.value).value.kind == Menu)
  }

  function StepsBefore(request: Request): nat {
    if request.state.Some? then request.state.value.steps else 0
  }

  /** A long trail begins at the start, or behind the block that waits for the reply. */
  ghost predicate EntersLongTrail(g: Graph, request: Request, bound: int) {
    if request.state.None? then StartId(g).Some? && LongTrail(g, [StartId(g).value], bound)
    else request.state.value.nodeId.Some? && LongTrailAfter(g, request.state.value.nodeId.value, bound)
  }

  lemma LongEntranceFits(h: Host, g: Graph, request: Request, bound: int)
    requires Sound(h, g) && EntersLongTrail(g, request, bound)
    ensures |g.nodes| > bound
  {
    hide Sound, LongTrail;
    if request.state.None? {
      LongTrailFits(h, g, [StartId(g).value], bound);
    } else {
      var e :| e in g.edges && e.source == request.state.value.nodeId.value && LongTrail(g, [e.target], bound);
      LongTrailFits(h, g, [e.target], bound);
    }
  }

  lemma StartIsNoCapture(h: Host, g: Graph)
    requires Sound(h, g)
    ensures StartId(g).Some? && StartId(g).value in NodeIds(g.nodes)
    ensures FindNode(g.nodes, StartId(g).value).Some? && FindNode(g.nodes, StartId(g).value).value.kind == Start
  {
    hide ReachableFromStart, Leads, NodeLegal, EdgeLegal;
    StartIdExists(g);
    var n := FindKind(g.nodes, Start).value;
    FindIsUnique(g.nodes, n);
  }

  lemma ResumeElsewhere(h: Host, g: Graph, n: Node, text: string, p: Progress)
    requires n.kind != Input && n.kind != Menu
    ensures Resume(h, g, n, text, p) == Thrown(InvalidCapture)
  {
  }

  /**
   The main theorem. Executing a validated flow on any request never crashes. It fails to resume exactly when the
   saved state does not wait at an input or menu. It exhausts the hundred turns only if more than a hundred different
   blocks lie on a trail from where the message enters, and the thousand steps only if such a trail is longer than the
   steps already taken leave room for. Otherwise it returns a reported run over pairwise different blocks, repeats a
   menu, or echoes a finished conversation.
   */
  lemma ValidatedFlowNeverCrashes(h: Host, g: Graph, request: Request)
    requires WellFormed(h, g)
    ensures Execute(h, g, request) == Thrown(InvalidCapture) <==>
      request.state.Some? && request.state.value.status == Waiting && !WaitsAtCapture(g, request.state.value)
    ensures match Execute(h, g, request)
      case Crashed => false
      case Thrown(InvalidFlow(_)) => false
      case Thrown(InvalidCapture) => true
      case Thrown(TurnLimit) => EntersLongTrail(g, request, TURNS) && |g.nodes| > TURNS
      case Thrown(StepLimit) =>
        EntersLongTrail(g, request, MAX_STEPS - StepsBefore(request)) && MAX_STEPS < StepsBefore(request) + |g.nodes|
      case Returned(r) =>
        && r.state.steps == StepsBefore(request) + |r.trace|
        && (r.trace != [] ==> Reported(g, r) && r.state.steps <= MAX_STEPS)
        && (r.trace == [] ==> request.state.Some? && r.state == FlowState(request.state.value.status,
              if r.state.status == Waiting then request.state.value.nodeId else None,
              InitialVariables(request), request.state.value.steps))
  {
    hide Run, Reported, InitialVariables, Sound, Shape, Resume, FlowErrors, LongTrail, LongTrailAfter;
    NoErrorsIsWellFormed(h, g);
    StartIsNoCapture(h, g);
    var p := Opening(request);
    var current :=
      if request.state.Some? && request.state.value.nodeId.Some? then request.state.value.nodeId else StartId(g);
    if request.state.None? {
      FreshRunIsSafe(h, g, current.value, p);
    } else if request.state.value.status == Waiting {
      var found := FindNode(g.nodes, current.value);
      if found.Some? && (found.value.kind == Input || found.value.kind == Menu) {
        ResumeIsSafe(h, g, found.value, request.text, p);
      } else if found.Some? {
        ResumeElsewhere(h, g, found.value, request.text, p);
      }
    }
    if Execute(h, g, request) == Thrown(TurnLimit) {
      LongEntranceFits(h, g, request, TURNS);
    } else if Execute(h, g, request) == Thrown(StepLimit) {
      LongEntranceFits(h, g, request, MAX_STEPS - StepsBefore(request));
    }
  }
}
