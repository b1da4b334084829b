/**
 `validateFlow` of packages/contracts/src/flows.ts: the checks in their source order, and the declarative
 notion of a well-formed flow that an empty error list stands for.
 */
module FlowValidator {
  import opened Wrappers
  import opened Json
  import opened FlowGraph
  import opened GraphSearch

  /** One constructor per message, with the parts that are spliced into its text. */
  datatype FlowError =
    | InvalidFormat | DuplicateNodeIds | DuplicateEdgeIds | StartCount | DanglingEdge | DuplicatePort
    | InvalidPort(caption: string) | StartReentry
    | UnknownKind(caption: string, name: string) | MissingConnection(caption: string, port: string)
    | BadMessage(caption: string) | BadVariable(caption: string) | LongQuestion(caption: string)
    | TimeoutUnsupported(caption: string) | CaptureVersion(caption: string)
    | BadMenuText(caption: string) | BadMenuOptions(caption: string) | BadCondition(caption: string)
    | UnreachableNode | UnguardedCycle

  // ----- per-block rules, shared by the checks and by the declarative reading -----

  const OPERATORS: set<string> := {"equals", "not_equals", "contains", "starts_with", "present"}

  predicate TextOk(data: Fields) {
    Trim(ValueText(Field(data, "text"))) != "" && |ValueText(Field(data, "text"))| <= 4096
  }

  /** `Number(data.timeout ?? 0) > 0`. */
  predicate PositiveTimeout(h: Host, data: Fields) {
    match Field(data, "timeout")
    case None => false
    case Some(Null) => false
    case Some(x) =>
      match h.number(x)
      case NaN => false
      case Infinite(negative) => !negative
      case Finite(r) => r > 0.0
  }

  predicate FlowCaptureVersionOk(data: Fields) {
    match Field(data, "inputConfigVersion")
    case None => true
    case Some(version) => version == Number("1") || version == Number("2")
  }

  predicate DistinctOptions(options: seq<MenuOption>) {
    forall i, j | 0 <= i < j < |options| :: options[i].value != options[j].value
  }

  predicate MenuOptionsOk(n: Node) {
    && 2 <= |MenuOptions(n)| <= 10
    && |MenuOptions(n)| == |RawOptions(n)|
    && DistinctOptions(MenuOptions(n))
  }

  predicate ConditionOk(data: Fields) {
    SafeKeyField(Field(data, "field")) && ValueText(Field(data, "operator")) in OPERATORS
  }

  /** The configuration each supported kind of block must have. */
  predicate Configured(h: Host, n: Node) {
    match n.kind
    case Message => TextOk(n.data)
    case Input =>
      && SafeKeyField(Field(n.data, "variable"))
      && |ValueText(Field(n.data, "text"))| <= 4096
      && !PositiveTimeout(h, n.data)
      && FlowCaptureVersionOk(n.data)
    case Menu => TextOk(n.data) && MenuOptionsOk(n)
    case Condition => ConditionOk(n.data)
    case Variable => SafeKeyField(Field(n.data, "variable"))
    case Other(_) => false
    case _ => true
  }

  // ----- whole-graph rules -----

  ghost predicate Distinct(ids: seq<string>) {
    forall i, j | 0 <= i < j < |ids| :: ids[i] != ids[j]
  }

  function SetOf(ids: seq<string>): (s: set<string>)
    ensures forall id :: id in s <==> id in ids
  {
    set id | id in ids
  }

  function IdsOf(nodes: seq<Node>): (ids: seq<string>)
    ensures |ids| == |nodes| && forall i | 0 <= i < |ids| :: ids[i] == nodes[i].id
  {
    seq(|nodes|, i requires 0 <= i < |nodes| => nodes[i].id)
  }

  function EdgeIdsOf(edges: seq<Edge>): (ids: seq<string>)
    ensures |ids| == |edges| && forall i | 0 <= i < |ids| :: ids[i] == edges[i].id
  {
    seq(|edges|, i requires 0 <= i < |edges| => edges[i].id)
  }

  /** Blocks at which the cycle check stops: the first block with that id captures a reply. */
  function WaitingIds(g: Graph): set<string> {
    set n | n in g.nodes && FindNode(g.nodes, n.id) != None && FindNode(g.nodes, n.id).value.kind == Input :: n.id
  }

  function StartId(g: Graph): Option<string> {
    match FindKind(g.nodes, Start)
    case Some(n) => Some(n.id)
    case None => None
  }

  ghost predicate ReachableFromStart(g: Graph, id: string) {
    StartId(g).Some? && Reaches(g.edges, {}, StartId(g).value, id)
  }

  ghost predicate OneStart(nodes: seq<Node>) {
    exists i | 0 <= i < |nodes| ::
      nodes[i].kind == Start && forall j | 0 <= j < |nodes| && nodes[j].kind == Start :: j == i
  }

  ghost predicate EndpointsExist(g: Graph) {
    forall e <- g.edges :: e.source in NodeIds(g.nodes) && e.target in NodeIds(g.nodes)
  }

  /** An output carries at most one connection. */
  ghost predicate OutputsFunctional(edges: seq<Edge>) {
    forall i, j | 0 <= i < j < |edges| :: edges[i].source != edges[j].source || edges[i].port != edges[j].port
  }

  ghost predicate Connected(edges: seq<Edge>, id: string, port: string) {
    exists e <- edges :: e.source == id && e.port == port
  }

  ghost predicate EdgeLegal(g: Graph, e: Edge) {
    && (FindNode(g.nodes, e.source).Some? ==> e.port in FlowPorts(FindNode(g.nodes, e.source).value))
    && (FindNode(g.nodes, e.target).Some? ==> FindNode(g.nodes, e.target).value.kind != Start)
  }

  ghost predicate NodeLegal(h: Host, g: Graph, n: Node) {
    Configured(h, n) && forall port <- FlowPorts(n) :: Connected(g.edges, n.id, port)
  }

  /** The rules that do not depend on the size of the graph or of its texts. */
  ghost predicate Sound(h: Host, g: Graph) {
    && Distinct(IdsOf(g.nodes))
    && Distinct(EdgeIdsOf(g.edges))
    && OneStart(g.nodes)
    && EndpointsExist(g)
    && OutputsFunctional(g.edges)
    && (forall e <- g.edges :: EdgeLegal(g, e))
    && (forall n <- g.nodes :: NodeLegal(h, g, n))
    && (forall n <- g.nodes :: ReachableFromStart(g, n.id))
    && !(exists x :: Leads(g.edges, WaitingIds(g), x, x))
  }

  ghost predicate WellFormed(h: Host, g: Graph) {
    Shape(h, g) && Sound(h, g)
  }

  /** With distinct ids, the first match is the only one. */
  lemma FindIsUnique(nodes: seq<Node>, n: Node)
    requires Distinct(IdsOf(nodes)) && n in nodes
    ensures FindNode(nodes, n.id) == Some(n)
  {
    var found := FindNode(nodes, n.id);
    assert found.Some?;
    var i :| 0 <= i < |nodes| && nodes[i] == n;
    var j :| 0 <= j < |nodes| && nodes[j] == found.value;
    assert IdsOf(nodes)[i] == IdsOf(nodes)[j];
  }

  // ----- the error list -----

  function When(failed: bool, error: FlowError): seq<FlowError> {
    if failed then [error] else []
  }

  function CountKind(nodes: seq<Node>, kind: NodeKind): nat {
    if nodes == [] then 0 else (if nodes[0].kind == kind then 1 else 0) + CountKind(nodes[1..], kind)
  }

  function GraphErrors(g: Graph): seq<FlowError> {
    When(|SetOf(IdsOf(g.nodes))| != |g.nodes|, DuplicateNodeIds)
    + When(|SetOf(EdgeIdsOf(g.edges))| != |g.edges|, DuplicateEdgeIds)
    + When(CountKind(g.nodes, Start) != 1, StartCount)
    + When(exists e <- g.edges :: e.source !in NodeIds(g.nodes) || e.target !in NodeIds(g.nodes), DanglingEdge)
  }

  ghost predicate OutputTaken(edges: seq<Edge>, i: nat)
    requires i < |edges|
  {
    exists j | 0 <= j < i :: edges[j].source == edges[i].source && edges[j].port == edges[i].port
  }

  function EndpointErrors(g: Graph, e: Edge): seq<FlowError> {
    (match FindNode(g.nodes, e.source)
     case Some(from) => When(e.port !in FlowPorts(from), InvalidPort(from.caption))
     case None => [])
    + (match FindNode(g.nodes, e.target)
       case Some(to) => When(to.kind == Start, StartReentry)
       case None => [])
  }

  /** Errors of the first `k` edges. */
  ghost function EdgeErrors(g: Graph, k: nat): seq<FlowError>
    requires k <= |g.edges|
  {
    if k == 0 then []
    else EdgeErrors(g, k - 1) + When(OutputTaken(g.edges, k - 1), DuplicatePort) + EndpointErrors(g, g.edges[k - 1])
  }

  /** Errors of the first `k` outputs of a block. */
  function PortErrors(edges: seq<Edge>, n: Node, ports: seq<string>, k: nat): seq<FlowError>
    requires k <= |ports|
  {
    if k == 0 then []
    else
      PortErrors(edges, n, ports, k - 1)
      + When(!exists e <- edges :: e.source == n.id && e.port == ports[k - 1],
             MissingConnection(n.caption, ports[k - 1]))
  }

  function ConfigErrors(h: Host, n: Node): seq<FlowError> {
    When(n.kind == Message && !TextOk(n.data), BadMessage(n.caption))
    + When((n.kind == Input || n.kind == Variable) && !SafeKeyField(Field(n.data, "variable")), BadVariable(n.caption))
    + When(n.kind == Input && |ValueText(Field(n.data, "text"))| > 4096, LongQuestion(n.caption))
    + When(n.kind == Input && PositiveTimeout(h, n.data), TimeoutUnsupported(n.caption))
    + When(n.kind == Input && !FlowCaptureVersionOk(n.data), CaptureVersion(n.caption))
    + When(n.kind == Menu && !TextOk(n.data), BadMenuText(n.caption))
    + When(n.kind == Menu && !MenuOptionsOk(n), BadMenuOptions(n.caption))
    + When(n.kind == Condition && !ConditionOk(n.data), BadCondition(n.caption))
  }

  function NodeErrorsOf(h: Host, g: Graph, n: Node): seq<FlowError> {
    if n.kind.Other? then [UnknownKind(n.caption, n.kind.name)]
    else PortErrors(g.edges, n, FlowPorts(n), |FlowPorts(n)|) + ConfigErrors(h, n)
  }

  /** Errors of the first `k` blocks. */
  function NodeErrors(h: Host, g: Graph, k: nat): seq<FlowError>
    requires k <= |g.nodes|
  {
    if k == 0 then [] else NodeErrors(h, g, k - 1) + NodeErrorsOf(h, g, g.nodes[k - 1])
  }

  ghost function SearchErrors(g: Graph): seq<FlowError> {
    When(exists n <- g.nodes :: !ReachableFromStart(g, n.id), UnreachableNode)
    + When(exists n <- g.nodes :: CycleFrom(g.edges, WaitingIds(g), n.id), UnguardedCycle)
  }

  /** The text of an error. */
  function MessageOf(e: FlowError): string {
    match e
    case InvalidFormat => "Formato de fluxo inválido: confira blocos, posições e conexões (até 150 blocos)."
    case DuplicateNodeIds => "Os identificadores dos blocos devem ser únicos."
    case DuplicateEdgeIds => "Os identificadores das conexões devem ser únicos."
    case StartCount => "O fluxo precisa de exatamente um início."
    case DanglingEdge => "Conexão aponta para um bloco inexistente."
    case DuplicatePort => "Cada saída permite uma única conexão."
    case InvalidPort(caption) => caption + ": saída inválida."
    case StartReentry => "Uma conexão não pode retornar ao início."
    case UnknownKind(caption, name) => caption + ": tipo " + name + " ainda não suportado."
    case MissingConnection(caption, port) => caption + ": conecte a saída " + port + "."
    case BadMessage(caption) => caption + ": informe uma mensagem de até 4096 caracteres."
    case BadVariable(caption) => caption + ": nome de variável inválido."
    case LongQuestion(caption) => caption + ": pergunta muito longa."
    case TimeoutUnsupported(caption) => caption + ": timeout importado ainda não suportado."
    case CaptureVersion(caption) => caption + ": esta versão de captura exige o Flow canônico."
    case BadMenuText(caption) => caption + ": informe a mensagem do menu."
    case BadMenuOptions(caption) => caption + ": configure de 2 a 10 opções numeradas e únicas."
    case BadCondition(caption) => caption + ": configure o campo e a comparação."
    case UnreachableNode => "Há blocos sem caminho a partir do início."
    case UnguardedCycle => "Há um ciclo sem captura de resposta. Inclua uma espera por nova mensagem."
  }

  function MessagesOf(errors: seq<FlowError>): (messages: seq<string>)
    ensures |messages| == |errors| && forall i | 0 <= i < |errors| :: messages[i] == MessageOf(errors[i])
  {
    seq(|errors|, i requires 0 <= i < |errors| => MessageOf(errors[i]))
  }

  /** `[...new Set(errors)]`: every message once, where it first occurs. */
  function Dedup(messages: seq<string>): (r: seq<string>)
    ensures forall m :: m in r <==> m in messages
    ensures forall i, j | 0 <= i < j < |r| :: r[i] != r[j]
    ensures r == [] <==> messages == []
  {
    if messages == [] then []
    else
      var head := messages[..|messages| - 1];
      var last := messages[|messages| - 1];
      assert messages == head + [last];
      if last in head then Dedup(head) else Dedup(head) + [last]
  }

  ghost function FlowErrors(h: Host, g: Graph): seq<string> {
    if !Shape(h, g) then [MessageOf(InvalidFormat)]
    else
      Dedup(MessagesOf(GraphErrors(g) + EdgeErrors(g, |g.edges|) + NodeErrors(h, g, |g.nodes|) + SearchErrors(g)))
  }

  // ----- an empty list means a well-formed flow -----

  lemma {:induction false} SetSizeIsDistinctness(ids: seq<string>)
    ensures |SetOf(ids)| <= |ids|
    ensures |SetOf(ids)| == |ids| <==> Distinct(ids)
  {
    if ids != [] {
      var head := ids[..|ids| - 1];
      var last := ids[|ids| - 1];
      assert ids == head + [last];
      SetSizeIsDistinctness(head);
      assert forall id :: id in ids <==> id in head || id == last;
      assert SetOf(ids) == SetOf(head) + {last};
      if last in head {
        var i :| 0 <= i < |head| && head[i] == last;
        assert ids[i] == ids[|ids| - 1];
      }
      if Distinct(ids) {
        assert forall i, j | 0 <= i < j < |head| :: ids[i] != ids[j];
      }
    }
  }

  lemma {:induction false} NoKind(nodes: seq<Node>, kind: NodeKind)
    ensures CountKind(nodes, kind) == 0 <==> forall n <- nodes :: n.kind != kind
  {
    if nodes != [] {
      NoKind(nodes[1..], kind);
      assert nodes == [nodes[0]] + nodes[1..];
    }
  }

  lemma StartComesFirst(nodes: seq<Node>)
    requires nodes != [] && nodes[0].kind == Start
    ensures OneStart(nodes) <==> forall n <- nodes[1..] :: n.kind != Start
  {
    if OneStart(nodes) {
      forall j | 0 <= j < |nodes| - 1 ensures nodes[1..][j].kind != Start { assert nodes[1..][j] == nodes[j + 1]; }
    }
    if forall n <- nodes[1..] :: n.kind != Start {
      forall j | 0 < j < |nodes| ensures nodes[j].kind != Start { assert nodes[j] == nodes[1..][j - 1]; }
    }
  }

  lemma StartComesLater(nodes: seq<Node>)
    requires nodes != [] && nodes[0].kind != Start
    ensures OneStart(nodes) <==> OneStart(nodes[1..])
  {
    var rest := nodes[1..];
    if OneStart(rest) {
      var i :|
        0 <= i < |rest| && rest[i].kind == Start && forall j | 0 <= j < |rest| && rest[j].kind == Start :: j == i;
      forall j | 0 <= j < |nodes| && nodes[j].kind == Start ensures j == i + 1 {
        assert nodes[j] == rest[j - 1];
      }
      assert nodes[i + 1].kind == Start;
    }
    if OneStart(nodes) {
      var i :|
        0 <= i < |nodes| && nodes[i].kind == Start && forall j | 0 <= j < |nodes| && nodes[j].kind == Start :: j == i;
      assert rest[i - 1] == nodes[i];
      forall j | 0 <= j < |rest| && rest[j].kind == Start ensures j == i - 1 { assert nodes[j + 1] == rest[j]; }
    }
  }

  lemma {:induction false} OneStartIsCountOne(nodes: seq<Node>)
    ensures CountKind(nodes, Start) == 1 <==> OneStart(nodes)
  {
    if nodes != [] {
      NoKind(nodes[1..], Start);
      if nodes[0].kind == Start {
        StartComesFirst(nodes);
      } else {
        StartComesLater(nodes);
        OneStartIsCountOne(nodes[1..]);
      }
    }
  }

  lemma GraphErrorsEmpty(g: Graph)
    ensures GraphErrors(g) == [] <==>
      Distinct(IdsOf(g.nodes)) && Distinct(EdgeIdsOf(g.edges)) && OneStart(g.nodes) && EndpointsExist(g)
  {
    SetSizeIsDistinctness(IdsOf(g.nodes));
    SetSizeIsDistinctness(EdgeIdsOf(g.edges));
    OneStartIsCountOne(g.nodes);
  }

  lemma EndpointErrorsEmpty(g: Graph, e: Edge)
    ensures EndpointErrors(g, e) == [] <==> EdgeLegal(g, e)
  {
  }

  lemma {:induction false} EdgeErrorsEmpty(g: Graph, k: nat)
    requires k <= |g.edges|
    ensures EdgeErrors(g, k) == [] <==>
      forall i | 0 <= i < k :: !OutputTaken(g.edges, i) && EdgeLegal(g, g.edges[i])
  {
    hide EdgeLegal, EndpointErrors, OutputTaken;
    if k > 0 {
      EdgeErrorsEmpty(g, k - 1);
      EndpointErrorsEmpty(g, g.edges[k - 1]);
    }
  }

  lemma {:induction false} PortErrorsEmpty(edges: seq<Edge>, n: Node, ports: seq<string>, k: nat)
    requires k <= |ports|
    ensures PortErrors(edges, n, ports, k) == [] <==> forall i | 0 <= i < k :: Connected(edges, n.id, ports[i])
  {
    if k > 0 { PortErrorsEmpty(edges, n, ports, k - 1); }
  }

  lemma ConfigErrorsEmpty(h: Host, n: Node)
    requires !n.kind.Other?
    ensures ConfigErrors(h, n) == [] <==> Configured(h, n)
  {
  }

  lemma NodeErrorsOfEmpty(h: Host, g: Graph, n: Node)
    ensures NodeErrorsOf(h, g, n) == [] <==> NodeLegal(h, g, n)
  {
    if !n.kind.Other? {
      PortErrorsEmpty(g.edges, n, FlowPorts(n), |FlowPorts(n)|);
      ConfigErrorsEmpty(h, n);
    }
  }

  lemma {:induction false} NodeErrorsEmpty(h: Host, g: Graph, k: nat)
    requires k <= |g.nodes|
    ensures NodeErrors(h, g, k) == [] <==> forall i | 0 <= i < k :: NodeLegal(h, g, g.nodes[i])
  {
    hide NodeLegal, NodeErrorsOf;
    if k > 0 {
      NodeErrorsEmpty(h, g, k - 1);
      NodeErrorsOfEmpty(h, g, g.nodes[k - 1]);
    }
  }

  lemma SearchErrorsEmpty(g: Graph)
    requires EndpointsExist(g)
    ensures SearchErrors(g) == [] <==>
      && (forall n <- g.nodes :: ReachableFromStart(g, n.id))
      && !(exists x :: Leads(g.edges, WaitingIds(g), x, x))
  {
    CycleCheckIsComplete(g.edges, WaitingIds(g), NodeIds(g.nodes));
    if id :| id in NodeIds(g.nodes) && CycleFrom(g.edges, WaitingIds(g), id) {
      assert exists n <- g.nodes :: n.id == id;
    }
  }

  lemma AllEdgeErrorsEmpty(g: Graph)
    ensures EdgeErrors(g, |g.edges|) == [] <==> OutputsFunctional(g.edges) && forall e <- g.edges :: EdgeLegal(g, e)
  {
    hide EdgeErrors, EdgeLegal;
    EdgeErrorsEmpty(g, |g.edges|);
    if forall i | 0 <= i < |g.edges| :: !OutputTaken(g.edges, i) && EdgeLegal(g, g.edges[i]) {
      forall i, j | 0 <= i < j < |g.edges|
        ensures g.edges[i].source != g.edges[j].source || g.edges[i].port != g.edges[j].port
      {
        assert !OutputTaken(g.edges, j);
      }
    }
  }

  lemma AllNodeErrorsEmpty(h: Host, g: Graph)
    ensures NodeErrors(h, g, |g.nodes|) == [] <==> forall n <- g.nodes :: NodeLegal(h, g, n)
  {
    hide NodeErrors, NodeLegal;
    NodeErrorsEmpty(h, g, |g.nodes|);
  }

  /** The validator accepts exactly the well-formed flows. */
  lemma NoErrorsIsWellFormed(h: Host, g: Graph)
    ensures FlowErrors(h, g) == [] <==> WellFormed(h, g)
  {
    hide Shape, GraphErrors, EdgeErrors, NodeErrors, SearchErrors, Dedup, MessageOf, Distinct, OneStart, EndpointsExist,
         OutputsFunctional, EdgeLegal, NodeLegal, ReachableFromStart, Leads, WaitingIds, IdsOf, EdgeIdsOf;
    GraphErrorsEmpty(g);
    AllEdgeErrorsEmpty(g);
    AllNodeErrorsEmpty(h, g);
    if EndpointsExist(g) { SearchErrorsEmpty(g); }
    var errors := GraphErrors(g) + EdgeErrors(g, |g.edges|) + NodeErrors(h, g, |g.nodes|) + SearchErrors(g);
    assert errors == [] <==>
      GraphErrors(g) == [] && EdgeErrors(g, |g.edges|) == [] && NodeErrors(h, g, |g.nodes|) == []
        && SearchErrors(g) == [];
  }

  // ----- the validator itself -----

  method CheckEdges(g: Graph) returns (errors: seq<FlowError>)
    ensures errors == EdgeErrors(g, |g.edges|)
  {
    hide EndpointErrors;
    errors := [];
    var ports: set<(string, string)> := {};
    for i := 0 to |g.edges|
      invariant errors == EdgeErrors(g, i)
      invariant forall j | 0 <= j < i :: (g.edges[j].source, g.edges[j].port) in ports
      invariant forall key <- ports :: exists j | 0 <= j < i :: (g.edges[j].source, g.edges[j].port) == key
    {
      var key := (g.edges[i].source, g.edges[i].port);
      assert key in ports <==> OutputTaken(g.edges, i);
      if key in ports { errors := errors + [DuplicatePort]; }
      ports := ports + {key};
      errors := errors + EndpointErrors(g, g.edges[i]);
    }
  }

  method CheckPorts(edges: seq<Edge>, n: Node, ports: seq<string>) returns (errors: seq<FlowError>)
    ensures errors == PortErrors(edges, n, ports, |ports|)
  {
    errors := [];
    for k := 0 to |ports|
      invariant errors == PortErrors(edges, n, ports, k)
    {
      if !exists e <- edges :: e.source == n.id && e.port == ports[k] {
        errors := errors + [MissingConnection(n.caption, ports[k])];
      }
    }
  }

  method CheckNodes(h: Host, g: Graph) returns (errors: seq<FlowError>)
    ensures errors == NodeErrors(h, g, |g.nodes|)
  {
    hide ConfigErrors, PortErrors, FlowPorts;
    errors := [];
    for i := 0 to |g.nodes|
      invariant errors == NodeErrors(h, g, i)
    {
      var n := g.nodes[i];
      if n.kind.Other? {
        errors := errors + [UnknownKind(n.caption, n.kind.name)];
      } else {
        var missing := CheckPorts(g.edges, n, FlowPorts(n));
        errors := errors + (missing + ConfigErrors(h, n));
      }
    }
  }

  method CheckSearches(g: Graph) returns (errors: seq<FlowError>)
    ensures errors == SearchErrors(g)
  {
    hide Reaches, CycleFrom, WaitingIds;
    errors := [];
    var reached: set<string> := {};
    if StartId(g).Some? { reached := ReachableFrom(g.edges, StartId(g).value); }
    if exists n <- g.nodes :: n.id !in reached { errors := errors + [UnreachableNode]; }
    var cyclic := AnyCycle(g.edges, WaitingIds(g), IdsOf(g.nodes));
    assert (exists id <- IdsOf(g.nodes) :: CycleFrom(g.edges, WaitingIds(g), id))
      <==> exists n <- g.nodes :: CycleFrom(g.edges, WaitingIds(g), n.id) by {
      forall n <- g.nodes ensures n.id in IdsOf(g.nodes) {
        var i :| 0 <= i < |g.nodes| && g.nodes[i] == n;
        assert IdsOf(g.nodes)[i] == n.id;
      }
    }
    if cyclic { errors := errors + [UnguardedCycle]; }
  }

  /** Every error in source order without repeats; none exactly when the flow is well formed. */
  method ValidateFlow(h: Host, g: Graph) returns (errors: seq<string>)
    ensures errors == FlowErrors(h, g)
    ensures errors == [] <==> WellFormed(h, g)
  {
    NoErrorsIsWellFormed(h, g);
    hide WellFormed, MessageOf, Dedup, GraphErrors, EdgeErrors, NodeErrors, SearchErrors;
    if !Shape(h, g) { return [MessageOf(InvalidFormat)]; }
    var graphErrors := GraphErrors(g);
    var edgeErrors := CheckEdges(g);
    var nodeErrors := CheckNodes(h, g);
    var searchErrors := CheckSearches(g);
    errors := Dedup(MessagesOf(graphErrors + edgeErrors + nodeErrors + searchErrors));
  }
}
