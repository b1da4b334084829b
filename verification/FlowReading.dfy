/**
 What a flow looks at in its blocks: the settings of their kinds, and nothing else. Graphs that agree on the outputs of
 their blocks differ in validity only by the configuration of single blocks; graphs that agree on the texts a run reads
 answer alike.
 */
module FlowReading {
  import opened Wrappers
  import opened Json
  import opened FlowGraph
  import opened GraphSearch
  import opened FlowValidator
  import opened FlowExecutor

  // ----- blocks at the same places -----

  ghost predicate SameColumns(a: seq<Node>, b: seq<Node>) {
    |a| == |b| && forall i | 0 <= i < |a| :: a[i].id == b[i].id && a[i].kind == b[i].kind
  }

  /** Both lookups fail, or both find the block at one place. */
  ghost predicate SamePlace(a: seq<Node>, b: seq<Node>, m: Option<Node>, n: Option<Node>)
    requires |a| == |b|
  {
    (m.None? && n.None?) || exists i | 0 <= i < |a| :: m == Some(a[i]) && n == Some(b[i])
  }

  lemma {:induction false} SameLookups(a: seq<Node>, b: seq<Node>, id: string, kind: NodeKind)
    requires SameColumns(a, b)
    ensures SamePlace(a, b, FindNode(a, id), FindNode(b, id)) && SamePlace(a, b, FindKind(a, kind), FindKind(b, kind))
  {
    if a == [] {
    } else {
      assert a[0].id == b[0].id && a[0].kind == b[0].kind;
      SameLookups(a[1..], b[1..], id, kind);
      OnePlaceOn(a, b, FindNode(a[1..], id), FindNode(b[1..], id));
      OnePlaceOn(a, b, FindKind(a[1..], kind), FindKind(b[1..], kind));
      assert SamePlace(a, b, Some(a[0]), Some(b[0]));
      hide SameColumns, SamePlace;
    }
  }

  lemma OnePlaceOn(a: seq<Node>, b: seq<Node>, m: Option<Node>, n: Option<Node>)
    requires a != [] && |a| == |b| && SamePlace(a[1..], b[1..], m, n)
    ensures SamePlace(a, b, m, n)
  {
    if m.Some? {
      var i :| 0 <= i < |a[1..]| && m == Some(a[1..][i]) && n == Some(b[1..][i]);
      assert m == Some(a[i + 1]) && n == Some(b[i + 1]);
    }
  }

  lemma SamePlaceColumns(a: seq<Node>, b: seq<Node>, m: Option<Node>, n: Option<Node>)
    requires SameColumns(a, b) && SamePlace(a, b, m, n)
    ensures m.Some? == n.Some? && (m.Some? ==> m.value.id == n.value.id && m.value.kind == n.value.kind)
  {
  }

  // ----- the same skeleton -----

  /** The same connections, and at the same places blocks of the same kind with the same id and outputs. */
  ghost predicate SameSkeleton(a: Graph, b: Graph) {
    && a.edges == b.edges && SameColumns(a.nodes, b.nodes)
    && forall i | 0 <= i < |a.nodes| :: FlowPorts(a.nodes[i]) == FlowPorts(b.nodes[i])
  }

  lemma SameIds(a: seq<Node>, b: seq<Node>)
    requires SameColumns(a, b)
    ensures IdsOf(a) == IdsOf(b) && NodeIds(a) == NodeIds(b) && OneStart(a) == OneStart(b)
  {
    forall n <- a ensures n.id in NodeIds(b) { var i :| 0 <= i < |a| && a[i] == n; assert b[i] in b; }
    forall n <- b ensures n.id in NodeIds(a) { var i :| 0 <= i < |b| && b[i] == n; assert a[i] in a; }
  }

  /** A block at which the cycle check stops, by id. */
  predicate WaitsAt(nodes: seq<Node>, id: string) {
    FindNode(nodes, id).Some? && FindNode(nodes, id).value.kind == Input
  }

  lemma WaitingIdsAre(g: Graph)
    ensures WaitingIds(g) == set id <- NodeIds(g.nodes) | WaitsAt(g.nodes, id)
  {
    forall id <- WaitingIds(g) ensures id in NodeIds(g.nodes) && WaitsAt(g.nodes, id) {}
    forall id <- NodeIds(g.nodes) | WaitsAt(g.nodes, id) ensures id in WaitingIds(g) {
      var n :| n in g.nodes && n.id == id;
    }
  }

  lemma SameWaitingAndStart(a: Graph, b: Graph)
    requires SameColumns(a.nodes, b.nodes)
    ensures WaitingIds(a) == WaitingIds(b) && StartId(a) == StartId(b)
  {
    hide *;
    SameIds(a.nodes, b.nodes);
    WaitingIdsAre(a);
    WaitingIdsAre(b);
    forall id ensures WaitsAt(a.nodes, id) == WaitsAt(b.nodes, id) { SameWaiting(a.nodes, b.nodes, id); }
    SameStartId(a, b);
  }

  lemma SameWaiting(a: seq<Node>, b: seq<Node>, id: string)
    requires SameColumns(a, b)
    ensures WaitsAt(a, id) == WaitsAt(b, id)
  {
    SameLookups(a, b, id, Start);
    SamePlaceColumns(a, b, FindNode(a, id), FindNode(b, id));
    hide FindNode, FindKind;
  }

  lemma SameStartId(a: Graph, b: Graph)
    requires SameColumns(a.nodes, b.nodes)
    ensures StartId(a) == StartId(b)
  {
    SameLookups(a.nodes, b.nodes, "", Start);
    SamePlaceColumns(a.nodes, b.nodes, FindKind(a.nodes, Start), FindKind(b.nodes, Start));
    hide FindNode, FindKind;
  }

  lemma SkeletonEdge(a: Graph, b: Graph, e: Edge)
    requires SameSkeleton(a, b) && EdgeLegal(a, e)
    ensures EdgeLegal(b, e)
  {
    SameLookups(a.nodes, b.nodes, e.source, Start);
    SameLookups(a.nodes, b.nodes, e.target, Start);
    SamePlaceColumns(a.nodes, b.nodes, FindNode(a.nodes, e.source), FindNode(b.nodes, e.source));
    SamePlaceColumns(a.nodes, b.nodes, FindNode(a.nodes, e.target), FindNode(b.nodes, e.target));
    hide FindNode, FindKind, FlowPorts, SameColumns;
  }

  lemma SkeletonNode(h: Host, a: Graph, b: Graph, i: nat)
    requires SameSkeleton(a, b) && i < |a.nodes| && StartId(a) == StartId(b)
    requires NodeLegal(h, a, a.nodes[i]) && ReachableFromStart(a, a.nodes[i].id) && Configured(h, b.nodes[i])
    ensures NodeLegal(h, b, b.nodes[i]) && ReachableFromStart(b, b.nodes[i].id)
  {
    assert a.nodes[i].id == b.nodes[i].id;
    hide Configured, FlowPorts, Connected, StartId, Reaches;
  }

  lemma SkeletonParts(h: Host, a: Graph, b: Graph)
    requires SameSkeleton(a, b) && (forall n <- b.nodes :: Configured(h, n))
    requires forall e <- a.edges :: EdgeLegal(a, e)
    requires forall n <- a.nodes :: NodeLegal(h, a, n) && ReachableFromStart(a, n.id)
    ensures forall e <- b.edges :: EdgeLegal(b, e)
    ensures forall n <- b.nodes :: NodeLegal(h, b, n) && ReachableFromStart(b, n.id)
  {
    hide *;
    SkeletonShape(a, b);
    forall e <- b.edges ensures EdgeLegal(b, e) { SkeletonEdge(a, b, e); }
    forall n <- b.nodes ensures NodeLegal(h, b, n) && ReachableFromStart(b, n.id) {
      var i :| 0 <= i < |b.nodes| && b.nodes[i] == n;
      SkeletonNode(h, a, b, i);
    }
  }

  lemma SkeletonShape(a: Graph, b: Graph)
    requires SameSkeleton(a, b)
    ensures a.edges == b.edges && |a.nodes| == |b.nodes| && StartId(a) == StartId(b) && WaitingIds(a) == WaitingIds(b)
    ensures IdsOf(a.nodes) == IdsOf(b.nodes) && NodeIds(a.nodes) == NodeIds(b.nodes)
    ensures OneStart(a.nodes) == OneStart(b.nodes)
  {
    SameWaitingAndStart(a, b);
    SameIds(a.nodes, b.nodes);
    hide FlowPorts, StartId, WaitingIds, NodeIds, OneStart;
  }

  lemma SoundIsConfigured(h: Host, g: Graph)
    requires Sound(h, g)
    ensures forall n <- g.nodes :: Configured(h, n)
  {
    hide Distinct, EdgeLegal, Connected, ReachableFromStart, Configured, FlowPorts;
    assert forall n <- g.nodes :: NodeLegal(h, g, n);
  }

  lemma SkeletonIsSound(h: Host, a: Graph, b: Graph)
    requires Sound(h, a) && SameSkeleton(a, b) && forall n <- b.nodes :: Configured(h, n)
    ensures Sound(h, b)
  {
    SkeletonShape(a, b);
    hide SameSkeleton, EdgeLegal, NodeLegal, ReachableFromStart, Configured, Distinct, OneStart, OutputsFunctional,
         Leads, StartId, WaitingIds, NodeIds;
    SkeletonParts(h, a, b);
  }

  /** On the skeleton of a sound flow, soundness is a matter of single blocks. */
  lemma SkeletonSoundIff(h: Host, a: Graph, b: Graph)
    requires Sound(h, a) && SameSkeleton(a, b)
    ensures Sound(h, b) <==> forall n <- b.nodes :: Configured(h, n)
  {
    hide *;
    if Sound(h, b) {
      SoundIsConfigured(h, b);
    } else if forall n <- b.nodes :: Configured(h, n) {
      SkeletonIsSound(h, a, b);
    }
  }

  // ----- what a run reads -----

  /** The settings of a block whose texts a run reads. */
  function TextsRead(kind: NodeKind): set<string> {
    match kind
    case Message => {"text"}
    case Input => {"text", "variable"}
    case Menu => {"text", "variable"}
    case Condition => {"field", "value"}
    case Variable => {"variable", "value"}
    case _ => {}
  }

  /** Two blocks that a run cannot tell apart: the same identity, texts, options and operator. */
  ghost predicate RunsAlike(m: Node, n: Node) {
    && m.id == n.id && m.kind == n.kind && m.caption == n.caption
    && (forall key <- TextsRead(m.kind) :: ValueText(Field(m.data, key)) == ValueText(Field(n.data, key)))
    && (m.kind == Menu ==> MenuOptions(m) == MenuOptions(n))
    && (m.kind == Condition ==> Field(m.data, "operator") == Field(n.data, "operator"))
  }

  ghost predicate SameRunning(a: Graph, b: Graph) {
    && a.edges == b.edges && |a.nodes| == |b.nodes|
    && forall i | 0 <= i < |a.nodes| :: RunsAlike(a.nodes[i], b.nodes[i])
  }

  lemma SameTexts(m: Node, n: Node, variables: Variables)
    requires RunsAlike(m, n)
    ensures forall key <- TextsRead(m.kind) ::
      RenderFlowText(Field(m.data, key), variables) == RenderFlowText(Field(n.data, key), variables)
    ensures MenuOptions(m) == MenuOptions(n) && FlowPorts(m) == FlowPorts(n)
  {
    hide OptionPorts, ReadOptions, ValueText, Expand;
  }

  lemma SameBlock(h: Host, m: Node, n: Node, p: Progress)
    requires RunsAlike(m, n)
    ensures Enter(m, p) == Enter(n, p) && Pass(m, p) == Pass(n, p)
    ensures PortTaken(h, m, p.variables) == PortTaken(h, n, p.variables)
    ensures Pauses(m.kind) ==> PauseAt(m, p) == PauseAt(n, p)
  {
    SameTexts(m, n, p.variables);
    hide MenuOptions, RenderFlowText, Compare, MenuList, Trim, ValueText, FlowPorts;
  }

  ghost predicate BothAlike(m: Option<Node>, n: Option<Node>) {
    m.Some? == n.Some? && (m.Some? ==> RunsAlike(m.value, n.value))
  }

  lemma SameFound(a: Graph, b: Graph, id: string)
    requires SameRunning(a, b)
    ensures BothAlike(FindNode(a.nodes, id), FindNode(b.nodes, id)) && StartId(a) == StartId(b)
  {
    RunningColumns(a, b);
    SameStartId(a, b);
    SameLookups(a.nodes, b.nodes, id, Start);
    hide FindNode, FindKind, RunsAlike, SameColumns, StartId;
  }

  lemma RunningColumns(a: Graph, b: Graph)
    requires SameRunning(a, b)
    ensures SameColumns(a.nodes, b.nodes) && a.edges == b.edges
  {
    forall i | 0 <= i < |a.nodes| ensures a.nodes[i].id == b.nodes[i].id && a.nodes[i].kind == b.nodes[i].kind {
      assert RunsAlike(a.nodes[i], b.nodes[i]);
    }
  }

  lemma {:induction false} AlikeRuns(h: Host, a: Graph, b: Graph, turn: nat, current: string, p: Progress)
    requires SameRunning(a, b)
    ensures Run(h, a, turn, current, p) == Run(h, b, turn, current, p)
    decreases TURNS - turn
  {
    assert a.edges == b.edges;
    hide SameRunning, RunsAlike, Pass, PortTaken, PauseAt, Enter, StartId;
    SameFound(a, b, current);
    var m, n := FindNode(a.nodes, current), FindNode(b.nodes, current);
    if turn < TURNS && p.steps + 1 <= MAX_STEPS && m.Some? {
      var entered := Enter(m.value, p);
      SameBlock(h, m.value, n.value, p);
      SameBlock(h, m.value, n.value, entered);
      var passed := Pass(m.value, entered);
      SameBlock(h, m.value, n.value, passed);
      KindsAgree(m.value, n.value);
      var e := FindEdge(a.edges, m.value.id, PortTaken(h, m.value, passed.variables));
      if !Pauses(m.value.kind) && e.Some? { AlikeRuns(h, a, b, turn + 1, e.value.target, passed); }
    }
  }

  lemma KindsAgree(m: Node, n: Node)
    requires RunsAlike(m, n)
    ensures m.kind == n.kind && m.id == n.id
    ensures m.kind == Input || m.kind == Menu ==>
      ValueText(Field(m.data, "variable")) == ValueText(Field(n.data, "variable"))
  {
  }

  lemma SamePrompt(m: Node, n: Node, variables: Variables, hint: seq<string>)
    requires RunsAlike(m, n) && m.kind == Menu
    ensures MenuPrompt(m, variables, hint) == MenuPrompt(n, variables, hint)
  {
    SameTexts(m, n, variables);
    hide MenuOptions, RenderFlowText, MenuList, ValueText, FlowPorts;
  }

  lemma AlikeResumes(h: Host, a: Graph, b: Graph, m: Node, n: Node, text: string, p: Progress)
    requires SameRunning(a, b) && RunsAlike(m, n)
    ensures Resume(h, a, m, text, p) == Resume(h, b, n, text, p)
  {
    assert a.edges == b.edges;
    SameTexts(m, n, p.variables);
    KindsAgree(m, n);
    if m.kind == Menu { SamePrompt(m, n, p.variables, [RETRY_HINT]); }
    hide SameRunning, RunsAlike, MenuOptions, FlowPorts, RawOptions, Run, MenuPrompt, RenderFlowText, ValueText;
    forall turn: nat, current, q ensures Run(h, a, turn, current, q) == Run(h, b, turn, current, q) {
      AlikeRuns(h, a, b, turn, current, q);
    }
  }

  /** Graphs whose blocks run alike answer every request alike, valid or not. */
  lemma SameRunningAnswersAlike(h: Host, a: Graph, b: Graph, request: Request)
    requires SameRunning(a, b)
    ensures ExecuteValid(h, a, request) == ExecuteValid(h, b, request)
  {
    hide SameRunning, Run, Resume, StartId, InitialVariables, RunsAlike;
    SameFound(a, b, "");
    var p := Opening(request);
    var current :=
      if request.state.Some? && request.state.value.nodeId.Some? then request.state.value.nodeId else StartId(a);
    if current.Some? {
      AlikeRuns(h, a, b, 0, current.value, p);
      SameFound(a, b, current.value);
      var m, n := FindNode(a.nodes, current.value), FindNode(b.nodes, current.value);
      if m.Some? { AlikeResumes(h, a, b, m.value, n.value, request.text, p); }
    }
  }

  // ----- what a flow reads at all -----

  /** The settings that validation or a run looks up, by kind of block. */
  function SettingsRead(kind: NodeKind): set<string> {
    match kind
    case Message => {"text"}
    case Input => {"variable", "text", "timeout", "inputConfigVersion"}
    case Menu => {"variable", "text", "options"}
    case Condition => {"field", "operator", "value"}
    case Variable => {"variable", "value"}
    case _ => {}
  }

  ghost predicate ReadAlike(m: Node, n: Node) {
    && m.id == n.id && m.kind == n.kind && m.caption == n.caption
    && forall key <- SettingsRead(m.kind) :: Field(m.data, key) == Field(n.data, key)
  }

  /** The same connections, and blocks that read alike at the same places. */
  ghost predicate SameReading(a: Graph, b: Graph) {
    && a.edges == b.edges && |a.nodes| == |b.nodes|
    && forall i | 0 <= i < |a.nodes| :: ReadAlike(a.nodes[i], b.nodes[i])
  }

  lemma AlikeMenus(m: Node, n: Node)
    requires ReadAlike(m, n)
    ensures MenuOptions(m) == MenuOptions(n) && FlowPorts(m) == FlowPorts(n)
    ensures m.kind == Menu ==> RawOptions(m) == RawOptions(n)
  {
    hide OptionPorts, ReadOptions;
  }

  lemma AlikeConfigured(h: Host, m: Node, n: Node)
    requires ReadAlike(m, n)
    ensures Configured(h, m) == Configured(h, n)
  {
    AlikeMenus(m, n);
    hide MenuOptions, RawOptions, Trim, ValueText, SafeKey, DistinctOptions;
  }

  lemma ReadingIsRunning(m: Node, n: Node)
    requires ReadAlike(m, n)
    ensures RunsAlike(m, n) && ReadAlike(n, m) && FlowPorts(m) == FlowPorts(n) && m.id == n.id && m.kind == n.kind
  {
    AlikeMenus(m, n);
    assert TextsRead(m.kind) <= SettingsRead(m.kind);
    hide MenuOptions, ValueText, FlowPorts, RawOptions;
  }

  lemma SameReadingIsAlike(a: Graph, b: Graph)
    requires SameReading(a, b)
    ensures SameRunning(a, b) && SameSkeleton(a, b) && SameReading(b, a)
  {
    forall i | 0 <= i < |a.nodes|
      ensures RunsAlike(a.nodes[i], b.nodes[i]) && ReadAlike(b.nodes[i], a.nodes[i])
      ensures FlowPorts(a.nodes[i]) == FlowPorts(b.nodes[i])
      ensures a.nodes[i].id == b.nodes[i].id && a.nodes[i].kind == b.nodes[i].kind
    {
      ReadingIsRunning(a.nodes[i], b.nodes[i]);
    }
    hide RunsAlike, ReadAlike, FlowPorts;
  }

  lemma SameReadingStaysSound(h: Host, a: Graph, b: Graph)
    requires SameReading(a, b) && Sound(h, a)
    ensures Sound(h, b)
  {
    hide *;
    SameReadingIsAlike(a, b);
    SoundIsConfigured(h, a);
    ConfiguredToo(h, a, b);
    SkeletonSoundIff(h, a, b);
  }

  lemma ConfiguredToo(h: Host, a: Graph, b: Graph)
    requires SameReading(a, b) && forall n <- a.nodes :: Configured(h, n)
    ensures forall n <- b.nodes :: Configured(h, n)
  {
    hide ReadAlike, Configured;
    forall n <- b.nodes ensures Configured(h, n) {
      var i :| 0 <= i < |b.nodes| && b.nodes[i] == n;
      AlikeConfigured(h, a.nodes[i], b.nodes[i]);
    }
  }

  /** For graphs within the schema: agreeing on the settings that are read, they are valid together and answer alike. */
  lemma OtherSettingsDoNotMatter(h: Host, a: Graph, b: Graph)
    requires SameReading(a, b) && Shape(h, a) && Shape(h, b)
    ensures WellFormed(h, a) <==> WellFormed(h, b)
    ensures WellFormed(h, a) ==> forall request :: Execute(h, a, request) == Execute(h, b, request)
  {
    SameReadingIsAlike(a, b);
    hide Shape, SameReading, ExecuteValid, FlowErrors, Sound, SameRunning, SameSkeleton;
    if Sound(h, a) { SameReadingStaysSound(h, a, b); }
    if Sound(h, b) { SameReadingStaysSound(h, b, a); }
    NoErrorsIsWellFormed(h, a);
    NoErrorsIsWellFormed(h, b);
    forall request ensures ExecuteValid(h, a, request) == ExecuteValid(h, b, request) {
      SameRunningAnswersAlike(h, a, b, request);
    }
  }
}
