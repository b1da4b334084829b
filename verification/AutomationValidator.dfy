/**
 `validateAutomationGraph` of packages/contracts/src/automations-v1.ts, the second and independent checker of the
 same graphs. The eight historical kinds of block are modelled in full; what newer kinds and versioned settings
 require comes from their schemas, which enter through `Catalog`.
 */
module AutomationValidator {
  import opened Wrappers
  import opened Json
  import opened FlowGraph
  import opened GraphSearch
  import opened FlowValidator

  /** Rules kept by schemas outside the modelled files; each `...Issues` lists the failing fields. */
  datatype Catalog = Catalog(
    secretKey: string -> bool,
    known: string -> bool,
    otherPorts: Node -> seq<string>,
    otherIssues: Node -> seq<string>,
    entryIssues: Fields -> seq<string>,
    captureIssues: Fields -> seq<string>,
    attemptIssues: Fields -> seq<string>,
    handoffIssues: Fields -> seq<string>,
    menuWaitRest: Fields -> bool      // MenuWaitConfigV2Schema apart from its version
  )

  datatype Place =
    | Schema | NodeId | Nodes | Edges | Kind
    | EdgeId(id: string) | WholeEdge(id: string) | EdgePort(id: string) | EdgeTarget(id: string)
    | Marker(name: string) | Port(port: string) | Data(path: string)

  datatype Code =
    | InvalidGraph | DuplicateNodeId | StartCountCode | DuplicateEdgeId | MissingNode | DuplicatePortCode
      | InvalidPortCode
    | StartReentryCode | UnknownNodeType | ReconfigurationRequired | MissingConnectionCode | InvalidConfig
    | UnreachableCode | CycleWithoutInput

  datatype Diagnostic = Diagnostic(nodeId: Option<string>, place: Place, code: Code)

  // ----- secret-like keys -----

  predicate HasSecret(c: Catalog, value: Json) {
    match value
    case Arr(items) => exists item <- items :: HasSecret(c, item)
    case Obj(fields) => exists key <- fields :: c.secretKey(key) || HasSecret(c, fields[key])
    case _ => false
  }

  /** The fixed property names of a graph are not secret-like, so only block data can be. */
  predicate GraphHasSecret(c: Catalog, g: Graph) {
    exists n <- g.nodes :: HasSecret(c, Obj(n.data))
  }

  // ----- ports -----

  /** `Number(data[key])`. */
  function NumberAt(h: Host, data: Fields, key: string): JsNumber {
    match Field(data, key)
    case Some(x) => h.number(x)
    case None => NaN
  }

  /** Outputs that versioned settings add to the historical ones. */
  function ExtraPorts(h: Host, n: Node): seq<string> {
    match n.kind
    case Input =>
      var version := NumberAt(h, n.data, "inputConfigVersion");
      (if version == Finite(2.0) || version == Finite(3.0) then ["exhausted"] else [])
      + (if (version == Finite(1.0) || version == Finite(2.0) || version == Finite(3.0)) && "timeoutSeconds" in n.data
         then ["timeout"] else [])
    case Menu =>
      var version := NumberAt(h, n.data, "menuConfigVersion");
      (if version == Finite(1.0) || version == Finite(2.0) then ["exhausted"] else [])
      + (if Field(n.data, "menuConfigVersion") == Some(Number("2")) && "timeoutSeconds" in n.data then ["timeout"]
        else [])
    case _ => []
  }

  function AutomationPorts(c: Catalog, h: Host, n: Node): seq<string> {
    match n.kind
    case Other(name) => if c.known(name) then c.otherPorts(n) else ["next"]
    case Input => ["next"] + ExtraPorts(h, n)
    case Menu => OptionPorts(MenuOptions(n)) + ExtraPorts(h, n)
    case Condition => ["yes", "no"]
    case End => []
    case Handoff => []
    case _ => ["next"]
  }

  // ----- settings -----

  function Failing(failed: bool, path: string): seq<string> {
    if failed then [path] else []
  }

  /** The options rule of the menu schema, which sees the raw value only. */
  predicate OptionsValueOk(options: Option<Json>) {
    && options.Some? && options.value.Arr?
    && var parsed := ReadOptions(options.value.items);
       2 <= |parsed| <= 10 && |parsed| == |options.value.items| && DistinctOptions(parsed)
  }

  predicate OperatorOk(operator: Option<Json>) {
    operator.Some? && operator.value.Str? && operator.value.s in OPERATORS
  }

  function CaptureDefaults(h: Host, data: Fields): seq<string> {
    Failing(!SafeKeyField(Field(data, "variable")), "variable")
    + Failing(|ValueText(Field(data, "text"))| > 4096, "text")
    + Failing(PositiveTimeout(h, data), "timeout")
  }

  const HANDOFF_KEYS: set<string> := {"handoffVersion", "destination", "target"}

  /** Whether a block carries versioned settings. */
  predicate Marked(n: Node) {
    match n.kind
    case Start => "entryConfigVersion" in n.data
    case Input => "inputConfigVersion" in n.data
    case Menu => "menuConfigVersion" in n.data
    case Handoff => exists key <- HANDOFF_KEYS :: key in n.data
    case _ => false
  }

  /** What the schema of the versioned settings rejects. */
  function MarkedIssues(c: Catalog, n: Node): seq<string> {
    if !Marked(n) then []
    else
      match n.kind
      case Start => c.entryIssues(n.data)
      case Input => c.captureIssues(n.data)
      case Menu => c.attemptIssues(n.data)
      case _ => c.handoffIssues(n.data)
  }

  function ConfigIssues(c: Catalog, h: Host, n: Node): seq<string> {
    match n.kind
    case Message => Failing(!TextOk(n.data), "text")
    case Input => if Marked(n) then MarkedIssues(c, n) else CaptureDefaults(h, n.data)
    case Menu =>
      Failing(!TextOk(n.data), "text") + Failing(!OptionsValueOk(Field(n.data, "options")), "options")
        + MarkedIssues(c, n)
    case Condition =>
      Failing(!SafeKeyField(Field(n.data, "field")), "field")
        + Failing(!OperatorOk(Field(n.data, "operator")), "operator")
    case Variable => Failing(!SafeKeyField(Field(n.data, "variable")), "variable")
    case Start => MarkedIssues(c, n)
    case Handoff => MarkedIssues(c, n)
    case End => []
    case Other(_) => c.otherIssues(n)
  }

  /** Blocks with effects outside the conversation must have been saved by the version-2 editor. */
  function EffectMarker(kind: NodeKind): Option<string> {
    if kind == Other("media") then Some("mediaEffectVersion")
    else if kind.Other? && kind.name in {"tag", "attribute", "note", "resolve", "domain"}
      then Some("conversationEffectVersion")
    else None
  }

  predicate EffectOk(n: Node) {
    EffectMarker(n.kind).Some? ==> Field(n.data, EffectMarker(n.kind).value) == Some(Number("2"))
  }

  predicate Known(c: Catalog, kind: NodeKind) {
    kind.Other? ==> c.known(kind.name)
  }

  /** Here a version-2 menu also waits, besides every input. */
  predicate Waits(c: Catalog, n: Node) {
    || n.kind == Input
    || (n.kind == Menu && Field(n.data, "menuConfigVersion") == Some(Number("2")) && c.menuWaitRest(n.data))
  }

  function AutomationWaitingIds(c: Catalog, g: Graph): set<string> {
    set n | n in g.nodes && FindNode(g.nodes, n.id) != None && Waits(c, FindNode(g.nodes, n.id).value) :: n.id
  }

  // ----- the diagnostics, in source order -----

  function Report(failed: bool, nodeId: Option<string>, place: Place, code: Code): seq<Diagnostic> {
    if failed then [Diagnostic(nodeId, place, code)] else []
  }

  ghost predicate Repeated(ids: seq<string>, i: nat)
    requires i < |ids|
  {
    ids[i] in ids[..i]
  }

  /** The first `k` blocks, in the loop that collects their ids. */
  ghost function IdDiagnostics(g: Graph, k: nat): seq<Diagnostic>
    requires k <= |g.nodes|
  {
    if k == 0 then []
    else
      IdDiagnostics(g, k - 1)
      + Report(Repeated(IdsOf(g.nodes), k - 1), Some(g.nodes[k - 1].id), NodeId, DuplicateNodeId)
  }

  function LegalDiagnostics(c: Catalog, h: Host, g: Graph, e: Edge): seq<Diagnostic> {
    (match FindNode(g.nodes, e.source)
     case Some(from) => Report(e.port !in AutomationPorts(c, h, from), Some(from.id), EdgePort(e.id), InvalidPortCode)
     case None => [])
    + (match FindNode(g.nodes, e.target)
       case Some(to) => Report(to.kind == Start, Some(e.source), EdgeTarget(e.id), StartReentryCode)
       case None => [])
  }

  function EndpointDiagnostics(g: Graph, e: Edge): seq<Diagnostic> {
    Report(e.source !in NodeIds(g.nodes) || e.target !in NodeIds(g.nodes),
           if e.source in NodeIds(g.nodes) then Some(e.source) else None, WholeEdge(e.id), MissingNode)
  }

  /** One edge, given whether an earlier edge has its id or its output. */
  function EdgeReport(c: Catalog, h: Host, g: Graph, e: Edge, repeated: bool, taken: bool): seq<Diagnostic> {
    Report(repeated, Some(e.source), EdgeId(e.id), DuplicateEdgeId)
    + EndpointDiagnostics(g, e)
    + Report(taken, Some(e.source), EdgePort(e.id), DuplicatePortCode)
    + LegalDiagnostics(c, h, g, e)
  }

  /** The first `k` edges. */
  ghost function EdgeDiagnostics(c: Catalog, h: Host, g: Graph, k: nat): seq<Diagnostic>
    requires k <= |g.edges|
  {
    if k == 0 then []
    else
      EdgeDiagnostics(c, h, g, k - 1)
      + EdgeReport(c, h, g, g.edges[k - 1], Repeated(EdgeIdsOf(g.edges), k - 1), OutputTaken(g.edges, k - 1))
  }

  /** The first `k` outputs of a block. */
  function PortDiagnostics(g: Graph, n: Node, ports: seq<string>, k: nat): seq<Diagnostic>
    requires k <= |ports|
  {
    if k == 0 then []
    else
      PortDiagnostics(g, n, ports, k - 1)
      + Report(!exists e <- g.edges :: e.source == n.id && e.port == ports[k - 1],
               Some(n.id), Port(ports[k - 1]), MissingConnectionCode)
  }

  function IssueDiagnostics(n: Node, issues: seq<string>): (r: seq<Diagnostic>)
    ensures |r| == |issues|
  {
    seq(|issues|, i requires 0 <= i < |issues| => Diagnostic(Some(n.id), Data(issues[i]), InvalidConfig))
  }

  function NodeDiagnosticsOf(c: Catalog, h: Host, g: Graph, n: Node): seq<Diagnostic> {
    if !Known(c, n.kind) then [Diagnostic(Some(n.id), Kind, UnknownNodeType)]
    else
      (if EffectOk(n) then []
        else [Diagnostic(Some(n.id), Marker(EffectMarker(n.kind).value), ReconfigurationRequired)])
      + PortDiagnostics(g, n, AutomationPorts(c, h, n), |AutomationPorts(c, h, n)|)
      + IssueDiagnostics(n, ConfigIssues(c, h, n))
  }

  /** The first `k` blocks, in the loop that checks their settings. */
  function NodeDiagnostics(c: Catalog, h: Host, g: Graph, k: nat): seq<Diagnostic>
    requires k <= |g.nodes|
  {
    if k == 0 then [] else NodeDiagnostics(c, h, g, k - 1) + NodeDiagnosticsOf(c, h, g, g.nodes[k - 1])
  }

  ghost function UnreachableDiagnostics(g: Graph, k: nat): seq<Diagnostic>
    requires k <= |g.nodes|
  {
    if k == 0 then []
    else
      UnreachableDiagnostics(g, k - 1)
      + Report(!ReachableFromStart(g, g.nodes[k - 1].id), Some(g.nodes[k - 1].id), NodeId, UnreachableCode)
  }

  ghost function SearchDiagnostics(c: Catalog, g: Graph): seq<Diagnostic> {
    UnreachableDiagnostics(g, |g.nodes|)
    + Report(exists n <- g.nodes :: CycleFrom(g.edges, AutomationWaitingIds(c, g), n.id),
             None, Edges, CycleWithoutInput)
  }

  ghost function Diagnostics(c: Catalog, h: Host, g: Graph): seq<Diagnostic> {
    if !Shape(h, g) || GraphHasSecret(c, g) then [Diagnostic(None, Schema, InvalidGraph)]
    else
      IdDiagnostics(g, |g.nodes|)
      + Report(CountKind(g.nodes, Start) != 1, None, Nodes, StartCountCode)
      + EdgeDiagnostics(c, h, g, |g.edges|)
      + NodeDiagnostics(c, h, g, |g.nodes|)
      + SearchDiagnostics(c, g)
  }

  // ----- the declarative reading -----

  ghost predicate AutomationEdgeLegal(c: Catalog, h: Host, g: Graph, e: Edge) {
    && (FindNode(g.nodes, e.source).Some? ==> e.port in AutomationPorts(c, h, FindNode(g.nodes, e.source).value))
    && (FindNode(g.nodes, e.target).Some? ==> FindNode(g.nodes, e.target).value.kind != Start)
  }

  ghost predicate AutomationNodeLegal(c: Catalog, h: Host, g: Graph, n: Node) {
    && Known(c, n.kind) && EffectOk(n)
    && (forall port <- AutomationPorts(c, h, n) :: Connected(g.edges, n.id, port))
    && ConfigIssues(c, h, n) == []
  }

  ghost predicate AutomationSound(c: Catalog, h: Host, g: Graph) {
    && Distinct(IdsOf(g.nodes))
    && Distinct(EdgeIdsOf(g.edges))
    && OneStart(g.nodes)
    && EndpointsExist(g)
    && OutputsFunctional(g.edges)
    && (forall e <- g.edges :: AutomationEdgeLegal(c, h, g, e))
    && (forall n <- g.nodes :: AutomationNodeLegal(c, h, g, n))
    && (forall n <- g.nodes :: ReachableFromStart(g, n.id))
    && !(exists x :: Leads(g.edges, AutomationWaitingIds(c, g), x, x))
  }

  // ----- no diagnostics means a sound graph -----

  lemma {:induction false} IdDiagnosticsEmpty(g: Graph, k: nat)
    requires k <= |g.nodes|
    ensures IdDiagnostics(g, k) == [] <==> forall i | 0 <= i < k :: !Repeated(IdsOf(g.nodes), i)
  {
    hide Repeated;
    if k > 0 { IdDiagnosticsEmpty(g, k - 1); }
  }

  lemma NoneRepeatedIsDistinct(ids: seq<string>)
    ensures (forall i | 0 <= i < |ids| :: !Repeated(ids, i)) <==> Distinct(ids)
  {
    if forall i | 0 <= i < |ids| :: !Repeated(ids, i) {
      forall i, j | 0 <= i < j < |ids| ensures ids[i] != ids[j] { assert !Repeated(ids, j); }
    }
  }

  lemma LegalDiagnosticsEmpty(c: Catalog, h: Host, g: Graph, e: Edge)
    ensures LegalDiagnostics(c, h, g, e) == [] <==> AutomationEdgeLegal(c, h, g, e)
  {
    hide AutomationPorts;
  }

  lemma {:induction false} EdgeDiagnosticsEmpty(c: Catalog, h: Host, g: Graph, k: nat)
    requires k <= |g.edges|
    ensures EdgeDiagnostics(c, h, g, k) == [] <==> forall i | 0 <= i < k ::
      && !Repeated(EdgeIdsOf(g.edges), i)
      && g.edges[i].source in NodeIds(g.nodes) && g.edges[i].target in NodeIds(g.nodes)
      && !OutputTaken(g.edges, i)
      && AutomationEdgeLegal(c, h, g, g.edges[i])
  {
    hide Repeated, OutputTaken, AutomationEdgeLegal, LegalDiagnostics;
    if k > 0 {
      EdgeDiagnosticsEmpty(c, h, g, k - 1);
      LegalDiagnosticsEmpty(c, h, g, g.edges[k - 1]);
    }
  }

  lemma AllEdgeDiagnosticsEmpty(c: Catalog, h: Host, g: Graph)
    ensures EdgeDiagnostics(c, h, g, |g.edges|) == [] <==>
      && Distinct(EdgeIdsOf(g.edges)) && EndpointsExist(g) && OutputsFunctional(g.edges)
      && forall e <- g.edges :: AutomationEdgeLegal(c, h, g, e)
  {
    hide EdgeDiagnostics, AutomationEdgeLegal, Repeated, Distinct;
    EdgeDiagnosticsEmpty(c, h, g, |g.edges|);
    NoneRepeatedIsDistinct(EdgeIdsOf(g.edges));
    assert OutputsFunctional(g.edges) <==> forall i | 0 <= i < |g.edges| :: !OutputTaken(g.edges, i) by {
      if forall i | 0 <= i < |g.edges| :: !OutputTaken(g.edges, i) {
        forall i, j | 0 <= i < j < |g.edges|
          ensures g.edges[i].source != g.edges[j].source || g.edges[i].port != g.edges[j].port
        {
          assert !OutputTaken(g.edges, j);
        }
      }
    }
  }

  lemma {:induction false} PortDiagnosticsEmpty(g: Graph, n: Node, ports: seq<string>, k: nat)
    requires k <= |ports|
    ensures PortDiagnostics(g, n, ports, k) == [] <==> forall i | 0 <= i < k :: Connected(g.edges, n.id, ports[i])
  {
    if k > 0 { PortDiagnosticsEmpty(g, n, ports, k - 1); }
  }

  lemma NodeDiagnosticsOfEmpty(c: Catalog, h: Host, g: Graph, n: Node)
    ensures NodeDiagnosticsOf(c, h, g, n) == [] <==> AutomationNodeLegal(c, h, g, n)
  {
    hide Connected, ConfigIssues, AutomationPorts, EffectOk, Known, PortDiagnostics;
    var ports := AutomationPorts(c, h, n);
    PortDiagnosticsEmpty(g, n, ports, |ports|);
    assert (forall port <- ports :: Connected(g.edges, n.id, port)) <==>
      forall i | 0 <= i < |ports| :: Connected(g.edges, n.id, ports[i]);
  }

  lemma {:induction false} NodeDiagnosticsEmpty(c: Catalog, h: Host, g: Graph, k: nat)
    requires k <= |g.nodes|
    ensures NodeDiagnostics(c, h, g, k) == [] <==> forall i | 0 <= i < k :: AutomationNodeLegal(c, h, g, g.nodes[i])
  {
    hide NodeDiagnosticsOf, AutomationNodeLegal;
    if k > 0 {
      NodeDiagnosticsEmpty(c, h, g, k - 1);
      NodeDiagnosticsOfEmpty(c, h, g, g.nodes[k - 1]);
    }
  }

  lemma {:induction false} UnreachableDiagnosticsEmpty(g: Graph, k: nat)
    requires k <= |g.nodes|
    ensures UnreachableDiagnostics(g, k) == [] <==> forall i | 0 <= i < k :: ReachableFromStart(g, g.nodes[i].id)
  {
    hide ReachableFromStart;
    if k > 0 { UnreachableDiagnosticsEmpty(g, k - 1); }
  }

  lemma SearchDiagnosticsEmpty(c: Catalog, g: Graph)
    requires EndpointsExist(g)
    ensures SearchDiagnostics(c, g) == [] <==>
      && (forall n <- g.nodes :: ReachableFromStart(g, n.id))
      && !(exists x :: Leads(g.edges, AutomationWaitingIds(c, g), x, x))
  {
    hide Leads, ReachableFromStart, CycleFrom, AutomationWaitingIds;
    UnreachableDiagnosticsEmpty(g, |g.nodes|);
    CycleCheckIsComplete(g.edges, AutomationWaitingIds(c, g), NodeIds(g.nodes));
    if id :| id in NodeIds(g.nodes) && CycleFrom(g.edges, AutomationWaitingIds(c, g), id) {
      assert exists n <- g.nodes :: n.id == id;
    }
  }

  lemma NoDiagnosticsIsSound(c: Catalog, h: Host, g: Graph)
    ensures Diagnostics(c, h, g) == [] <==> Shape(h, g) && !GraphHasSecret(c, g) && AutomationSound(c, h, g)
  {
    hide Shape, GraphHasSecret, IdDiagnostics, EdgeDiagnostics, NodeDiagnostics, SearchDiagnostics, Distinct, OneStart,
         EndpointsExist, OutputsFunctional, AutomationEdgeLegal, AutomationNodeLegal, ReachableFromStart, Leads,
         AutomationWaitingIds, IdsOf, EdgeIdsOf, Repeated;
    IdDiagnosticsEmpty(g, |g.nodes|);
    NoneRepeatedIsDistinct(IdsOf(g.nodes));
    OneStartIsCountOne(g.nodes);
    AllEdgeDiagnosticsEmpty(c, h, g);
    NodeDiagnosticsEmpty(c, h, g, |g.nodes|);
    assert (forall n <- g.nodes :: AutomationNodeLegal(c, h, g, n)) <==>
      forall i | 0 <= i < |g.nodes| :: AutomationNodeLegal(c, h, g, g.nodes[i]);
    if EndpointsExist(g) { SearchDiagnosticsEmpty(c, g); }
  }

  // ----- the validator itself -----

  method CheckIds(g: Graph) returns (diagnostics: seq<Diagnostic>, ids: set<string>)
    ensures diagnostics == IdDiagnostics(g, |g.nodes|) && ids == NodeIds(g.nodes)
  {
    diagnostics, ids := [], {};
    for i := 0 to |g.nodes|
      invariant diagnostics == IdDiagnostics(g, i)
      invariant forall j | 0 <= j < i :: g.nodes[j].id in ids
      invariant forall id <- ids :: exists j | 0 <= j < i :: g.nodes[j].id == id
    {
      var id := g.nodes[i].id;
      assert id in ids <==> Repeated(IdsOf(g.nodes), i) by {
        assert forall j | 0 <= j < |g.nodes| :: IdsOf(g.nodes)[j] == g.nodes[j].id;
      }
      if id in ids { diagnostics := diagnostics + [Diagnostic(Some(id), NodeId, DuplicateNodeId)]; }
      ids := ids + {id};
    }
  }

  method CheckEdge(c: Catalog, h: Host, g: Graph, ids: set<string>, edge: Edge, repeated: bool, taken: bool)
    returns (diagnostics: seq<Diagnostic>)
    requires ids == NodeIds(g.nodes)
    ensures diagnostics == EdgeReport(c, h, g, edge, repeated, taken)
  {
    hide LegalDiagnostics;
    diagnostics := [];
    if repeated { diagnostics := diagnostics + [Diagnostic(Some(edge.source), EdgeId(edge.id), DuplicateEdgeId)]; }
    if edge.source !in ids || edge.target !in ids {
      diagnostics := diagnostics
        + [Diagnostic(if edge.source in ids then Some(edge.source) else None, WholeEdge(edge.id), MissingNode)];
    }
    if taken { diagnostics := diagnostics + [Diagnostic(Some(edge.source), EdgePort(edge.id), DuplicatePortCode)]; }
    diagnostics := diagnostics + LegalDiagnostics(c, h, g, edge);
  }

  /** `connected` after the first `k` edges. */
  ghost predicate OutputsSeen(edges: seq<Edge>, k: nat, connected: set<(string, string)>)
    requires k <= |edges|
  {
    && (forall j | 0 <= j < k :: (edges[j].source, edges[j].port) in connected)
    && (forall key <- connected :: exists j | 0 <= j < k :: (edges[j].source, edges[j].port) == key)
  }

  lemma OneMoreOutput(edges: seq<Edge>, k: nat, connected: set<(string, string)>)
    requires k < |edges| && OutputsSeen(edges, k, connected)
    ensures (edges[k].source, edges[k].port) in connected <==> OutputTaken(edges, k)
    ensures OutputsSeen(edges, k + 1, connected + {(edges[k].source, edges[k].port)})
  {
  }

  /** `edgeIds` after the first `k` edges. */
  ghost predicate EdgeIdsSeen(edges: seq<Edge>, k: nat, edgeIds: set<string>)
    requires k <= |edges|
  {
    edgeIds == SetOf(EdgeIdsOf(edges)[..k])
  }

  lemma OneMoreEdgeId(edges: seq<Edge>, k: nat, edgeIds: set<string>)
    requires k < |edges| && EdgeIdsSeen(edges, k, edgeIds)
    ensures edges[k].id in edgeIds <==> Repeated(EdgeIdsOf(edges), k)
    ensures EdgeIdsSeen(edges, k + 1, edgeIds + {edges[k].id})
  {
    assert EdgeIdsOf(edges)[..k + 1] == EdgeIdsOf(edges)[..k] + [edges[k].id];
  }

  method CheckEdges(c: Catalog, h: Host, g: Graph, ids: set<string>) returns (diagnostics: seq<Diagnostic>)
    requires ids == NodeIds(g.nodes)
    ensures diagnostics == EdgeDiagnostics(c, h, g, |g.edges|)
  {
    hide *;
    var edgeIds: set<string>, connected: set<(string, string)> := {}, {};
    diagnostics := [];
    NoEdgeSeen(c, h, g);
    for i := 0 to |g.edges|
      invariant diagnostics == EdgeDiagnostics(c, h, g, i)
      invariant EdgeIdsSeen(g.edges, i, edgeIds)
      invariant OutputsSeen(g.edges, i, connected)
    {
      var edge := g.edges[i];
      OneMoreOutput(g.edges, i, connected);
      OneMoreEdgeId(g.edges, i, edgeIds);
      OneMoreReport(c, h, g, i);
      var found := CheckEdge(c, h, g, ids, edge, edge.id in edgeIds, (edge.source, edge.port) in connected);
      diagnostics := diagnostics + found;
      edgeIds, connected := edgeIds + {edge.id}, connected + {(edge.source, edge.port)};
    }
  }

  lemma NoEdgeSeen(c: Catalog, h: Host, g: Graph)
    ensures OutputsSeen(g.edges, 0, {}) && EdgeIdsSeen(g.edges, 0, {}) && EdgeDiagnostics(c, h, g, 0) == []
  {
  }

  lemma OneMoreReport(c: Catalog, h: Host, g: Graph, k: nat)
    requires k < |g.edges|
    ensures EdgeDiagnostics(c, h, g, k + 1) == EdgeDiagnostics(c, h, g, k)
      + EdgeReport(c, h, g, g.edges[k], Repeated(EdgeIdsOf(g.edges), k), OutputTaken(g.edges, k))
  {
    hide EdgeReport;
  }

  method CheckPorts(g: Graph, n: Node, ports: seq<string>) returns (diagnostics: seq<Diagnostic>)
    ensures diagnostics == PortDiagnostics(g, n, ports, |ports|)
  {
    diagnostics := [];
    for k := 0 to |ports|
      invariant diagnostics == PortDiagnostics(g, n, ports, k)
    {
      if !exists e <- g.edges :: e.source == n.id && e.port == ports[k] {
        diagnostics := diagnostics + [Diagnostic(Some(n.id), Port(ports[k]), MissingConnectionCode)];
      }
    }
  }

  method CheckNodes(c: Catalog, h: Host, g: Graph) returns (diagnostics: seq<Diagnostic>)
    ensures diagnostics == NodeDiagnostics(c, h, g, |g.nodes|)
  {
    hide AutomationPorts, ConfigIssues, EffectMarker, Known, PortDiagnostics;
    diagnostics := [];
    for i := 0 to |g.nodes|
      invariant diagnostics == NodeDiagnostics(c, h, g, i)
    {
      var n := g.nodes[i];
      if !Known(c, n.kind) {
        diagnostics := diagnostics + [Diagnostic(Some(n.id), Kind, UnknownNodeType)];
      } else {
        var found: seq<Diagnostic> := [];
        if !EffectOk(n) {
          found := [Diagnostic(Some(n.id), Marker(EffectMarker(n.kind).value), ReconfigurationRequired)];
        }
        var missing := CheckPorts(g, n, AutomationPorts(c, h, n));
        diagnostics := diagnostics + (found + missing + IssueDiagnostics(n, ConfigIssues(c, h, n)));
      }
    }
  }

  method CheckSearches(c: Catalog, g: Graph) returns (diagnostics: seq<Diagnostic>)
    ensures diagnostics == SearchDiagnostics(c, g)
  {
    hide Reaches, CycleFrom, AutomationWaitingIds;
    diagnostics := [];
    var reached: set<string> := {};
    if StartId(g).Some? { reached := ReachableFrom(g.edges, StartId(g).value); }
    for i := 0 to |g.nodes|
      invariant diagnostics == UnreachableDiagnostics(g, i)
    {
      if g.nodes[i].id !in reached {
        diagnostics := diagnostics + [Diagnostic(Some(g.nodes[i].id), NodeId, UnreachableCode)];
      }
    }
    var cyclic := AnyCycle(g.edges, AutomationWaitingIds(c, g), IdsOf(g.nodes));
    assert (exists id <- IdsOf(g.nodes) :: CycleFrom(g.edges, AutomationWaitingIds(c, g), id))
      <==> exists n <- g.nodes :: CycleFrom(g.edges, AutomationWaitingIds(c, g), n.id) by {
      forall n <- g.nodes ensures n.id in IdsOf(g.nodes) {
        var i :| 0 <= i < |g.nodes| && g.nodes[i] == n;
        assert IdsOf(g.nodes)[i] == n.id;
      }
    }
    if cyclic { diagnostics := diagnostics + [Diagnostic(None, Edges, CycleWithoutInput)]; }
  }

  /** Every diagnostic in source order; none exactly when the graph is sound and holds no secret. */
  method ValidateAutomationGraph(c: Catalog, h: Host, g: Graph) returns (diagnostics: seq<Diagnostic>)
    ensures diagnostics == Diagnostics(c, h, g)
    ensures diagnostics == [] <==> Shape(h, g) && !GraphHasSecret(c, g) && AutomationSound(c, h, g)
  {
    hide AutomationSound;
    NoDiagnosticsIsSound(c, h, g);
    if !Shape(h, g) || GraphHasSecret(c, g) { return [Diagnostic(None, Schema, InvalidGraph)]; }
    var idPart, ids := CheckIds(g);
    var startPart := Report(CountKind(g.nodes, Start) != 1, None, Nodes, StartCountCode);
    var edgePart := CheckEdges(c, h, g, ids);
    var nodePart := CheckNodes(c, h, g);
    var searchPart := CheckSearches(c, g);
    diagnostics := idPart + startPart + edgePart + nodePart + searchPart;
  }
}
