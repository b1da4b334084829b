/**
 What the validator of flows says, and in which order: a table of rules, each with its place and its message, that
 does not look at the checks themselves. A message is reported once, where it is due first.
 */
module FlowComplaints {
  import opened Json
  import opened TextLaws
  import opened FlowGraph
  import opened GraphSearch
  import opened FlowValidator
  import opened Listings

  // ----- the rules -----

  /** A text is missing or too long. */
  predicate BadText(n: Node) {
    var text := ValueText(Field(n.data, "text"));
    Spaces(text) || |text| > 4096
  }

  predicate HasSafeKey(n: Node, key: string) {
    match Field(n.data, key)
    case Some(Str(s)) => SafeKey(s)
    case _ => false
  }

  /** The time limit is a number above zero, if there is one. */
  predicate HasTimeout(h: Host, n: Node) {
    match Field(n.data, "timeout")
    case None => false
    case Some(Null) => false
    case Some(limit) =>
      match h.number(limit)
      case Finite(r) => r > 0.0
      case Infinite(negative) => !negative
      case NaN => false
  }

  predicate OtherVersion(n: Node) {
    match Field(n.data, "inputConfigVersion")
    case None => false
    case Some(Number(text)) => text != "1" && text != "2"
    case Some(_) => true
  }

  /** From 2 to 10 options, all of them legal, with different numbers. */
  ghost predicate GoodOptions(n: Node) {
    match Field(n.data, "options")
    case Some(Arr(raws)) =>
      && 2 <= |raws| <= 10 && (forall raw <- raws :: LegalOption(raw))
      && forall i, j | 0 <= i < j < |raws| && raws[i].Obj? && raws[j].Obj? ::
           OptionOf(raws[i]).value != OptionOf(raws[j]).value
    case _ => false
  }

  predicate GoodOperator(n: Node) {
    var operator := ValueText(Field(n.data, "operator"));
    operator == "equals" || operator == "not_equals" || operator == "contains" || operator == "starts_with"
    || operator == "present"
  }

  /** The eight rules about the settings of a block, by number. */
  ghost predicate Fails(h: Host, n: Node, rule: nat) {
    match rule
    case 0 => n.kind == Message && BadText(n)
    case 1 => (n.kind == Input || n.kind == Variable) && !HasSafeKey(n, "variable")
    case 2 => n.kind == Input && |ValueText(Field(n.data, "text"))| > 4096
    case 3 => n.kind == Input && HasTimeout(h, n)
    case 4 => n.kind == Input && OtherVersion(n)
    case 5 => n.kind == Menu && BadText(n)
    case 6 => n.kind == Menu && !GoodOptions(n)
    case 7 => n.kind == Condition && !(HasSafeKey(n, "field") && GoodOperator(n))
    case _ => false
  }

  /** What is said, after the caption of the block, when a rule about its settings fails. */
  function SettingText(rule: nat): string {
    match rule
    case 0 => ": informe uma mensagem de até 4096 caracteres."
    case 1 => ": nome de variável inválido."
    case 2 => ": pergunta muito longa."
    case 3 => ": timeout importado ainda não suportado."
    case 4 => ": esta versão de captura exige o Flow canônico."
    case 5 => ": informe a mensagem do menu."
    case 6 => ": configure de 2 a 10 opções numeradas e únicas."
    case _ => ": configure o campo e a comparação."
  }

  ghost predicate BreaksSetting(h: Host, n: Node, rule: nat, message: string) {
    Fails(h, n, rule) && message == n.caption + SettingText(rule)
  }

  ghost predicate BreaksGraph(g: Graph, rule: nat, message: string) {
    match rule
    case 0 => !Distinct(IdsOf(g.nodes)) && message == "Os identificadores dos blocos devem ser únicos."
    case 1 => !Distinct(EdgeIdsOf(g.edges)) && message == "Os identificadores das conexões devem ser únicos."
    case 2 => !OneStart(g.nodes) && message == "O fluxo precisa de exatamente um início."
    case 3 => !EndpointsExist(g) && message == "Conexão aponta para um bloco inexistente."
    case _ => false
  }

  ghost predicate BreaksEdge(g: Graph, i: nat, rule: nat, message: string)
    requires i < |g.edges|
  {
    var e := g.edges[i];
    var from, to := FindNode(g.nodes, e.source), FindNode(g.nodes, e.target);
    match rule
    case 0 =>
      (exists j | 0 <= j < i :: g.edges[j].source == e.source && g.edges[j].port == e.port)
      && message == "Cada saída permite uma única conexão."
    case 1 => from.Some? && e.port !in FlowPorts(from.value) && message == from.value.caption + ": saída inválida."
    case 2 => to.Some? && to.value.kind == Start && message == "Uma conexão não pode retornar ao início."
    case _ => false
  }

  /** First the outputs of a block in turn, then its settings; nothing but its kind if that is unknown. */
  ghost predicate BreaksNode(h: Host, g: Graph, i: nat, rule: nat, message: string)
    requires i < |g.nodes|
  {
    var n := g.nodes[i];
    if n.kind.Other? then rule == 0 && message == n.caption + ": tipo " + n.kind.name + " ainda não suportado."
    else if rule < |FlowPorts(n)| then
      && !Connected(g.edges, n.id, FlowPorts(n)[rule])
      && message == n.caption + ": conecte a saída " + FlowPorts(n)[rule] + "."
    else BreaksSetting(h, n, rule - |FlowPorts(n)|, message)
  }

  ghost predicate SomeBlockIsLost(g: Graph) {
    exists n <- g.nodes :: !ReachableFromStart(g, n.id)
  }

  ghost predicate SomeCycleIsFound(g: Graph) {
    exists n <- g.nodes :: CycleFrom(g.edges, WaitingIds(g), n.id)
  }

  ghost predicate BreaksSearch(g: Graph, rule: nat, message: string) {
    match rule
    case 0 => SomeBlockIsLost(g) && message == "Há blocos sem caminho a partir do início."
    case 1 =>
      SomeCycleIsFound(g)
      && message == "Há um ciclo sem captura de resposta. Inclua uma espera por nova mensagem."
    case _ => false
  }

  /** The message is due at this place. */
  ghost predicate Due(h: Host, g: Graph, p: Place, message: string) {
    if p.stage == 0 then p.element == 0 && BreaksGraph(g, p.rule, message)
    else if p.stage == 1 then p.element < |g.edges| && BreaksEdge(g, p.element, p.rule, message)
    else if p.stage == 2 then p.element < |g.nodes| && BreaksNode(h, g, p.element, p.rule, message)
    else p.stage == 3 && p.element == 0 && BreaksSearch(g, p.rule, message)
  }

  // ----- the rules about settings are those the checks apply -----

  lemma TextIsBad(n: Node)
    ensures BadText(n) <==> !TextOk(n.data)
  {
    TrimIsEmptyIff(ValueText(Field(n.data, "text")));
  }

  lemma OptionsAreGood(n: Node)
    requires n.kind == Menu
    ensures GoodOptions(n) <==> MenuOptionsOk(n)
  {
    hide LegalOption, OptionOf, ReadOptions;
    var raws := RawOptions(n);
    OptionsAreTheLegalOnes(raws, MenuOption("", ""));
    if forall raw <- raws :: LegalOption(raw) {
      LegalOnesAreRead(raws);
    }
  }

  lemma {:induction false} LegalOnesAreRead(raws: seq<Json>)
    requires forall raw <- raws :: LegalOption(raw)
    ensures |ReadOptions(raws)| == |raws|
    ensures forall i | 0 <= i < |raws| :: raws[i].Obj? && ReadOptions(raws)[i].value == OptionOf(raws[i]).value
  {
    hide OptionOf, ReadOption, IsOptionNumber;
    if raws != [] {
      OneOptionIsRead(raws[0]);
      LegalOnesAreRead(raws[1..]);
    }
  }

  /** The eight checks as they are made, and what they report. */
  function SettingFails(h: Host, n: Node): (fails: seq<bool>)
    ensures |fails| == 8
  {
    [n.kind == Message && !TextOk(n.data),
     (n.kind == Input || n.kind == Variable) && !SafeKeyField(Field(n.data, "variable")),
     n.kind == Input && |ValueText(Field(n.data, "text"))| > 4096,
     n.kind == Input && PositiveTimeout(h, n.data),
     n.kind == Input && !FlowCaptureVersionOk(n.data),
     n.kind == Menu && !TextOk(n.data),
     n.kind == Menu && !MenuOptionsOk(n),
     n.kind == Condition && !ConditionOk(n.data)]
  }

  function SettingErrors(n: Node): (errors: seq<FlowError>)
    ensures |errors| == 8
  {
    [BadMessage(n.caption), BadVariable(n.caption), LongQuestion(n.caption), TimeoutUnsupported(n.caption),
     CaptureVersion(n.caption), BadMenuText(n.caption), BadMenuOptions(n.caption), BadCondition(n.caption)]
  }

  lemma FailsIff(h: Host, n: Node, rule: nat)
    requires rule < 8
    ensures Fails(h, n, rule) <==> SettingFails(h, n)[rule]
  {
    hide BadText, TextOk, GoodOptions, MenuOptionsOk, SafeKey, Spaces, GoodOperator, ValueText;
    TextIsBad(n);
    if n.kind == Menu { OptionsAreGood(n); }
    OperatorIsGood(n);
  }

  lemma MessagesAre(caption: string)
    ensures MessageOf(BadMessage(caption)) == caption + SettingText(0)
    ensures MessageOf(BadVariable(caption)) == caption + SettingText(1)
    ensures MessageOf(LongQuestion(caption)) == caption + SettingText(2)
    ensures MessageOf(TimeoutUnsupported(caption)) == caption + SettingText(3)
    ensures MessageOf(CaptureVersion(caption)) == caption + SettingText(4)
    ensures MessageOf(BadMenuText(caption)) == caption + SettingText(5)
    ensures MessageOf(BadMenuOptions(caption)) == caption + SettingText(6)
    ensures MessageOf(BadCondition(caption)) == caption + SettingText(7)
  {
  }

  lemma SettingMessages(n: Node, rule: nat)
    requires rule < 8
    ensures MessageOf(SettingErrors(n)[rule]) == n.caption + SettingText(rule)
  {
    hide MessageOf, SettingText;
    MessagesAre(n.caption);
  }

  lemma SettingAt(h: Host, n: Node, rule: nat, message: string)
    requires rule < 8
    ensures BreaksSetting(h, n, rule, message) <==>
      SettingFails(h, n)[rule] && message == MessageOf(SettingErrors(n)[rule])
  {
    hide SettingFails, SettingErrors, Fails, SettingText, MessageOf;
    FailsIff(h, n, rule);
    SettingMessages(n, rule);
  }

  lemma OperatorIsGood(n: Node)
    ensures GoodOperator(n) <==> ValueText(Field(n.data, "operator")) in OPERATORS
  {
  }

  // ----- lists of messages with their places -----

  ghost function DueIn(h: Host, g: Graph): (due: (Place, string) -> bool)
    ensures forall p, m :: due(p, m) <==> Due(h, g, p, m)
  {
    (p, m) => Due(h, g, p, m)
  }

  /** The messages of the errors are exactly those due from `lo` up to `hi`, at these places and in their order. */
  ghost predicate Lists(h: Host, g: Graph, errors: seq<FlowError>, places: seq<Place>, lo: Place, hi: Place) {
    Listed(DueIn(h, g), MessagesOf(errors), places, lo, hi)
  }

  lemma NothingListed(h: Host, g: Graph, lo: Place)
    ensures Lists(h, g, [], [], lo, lo)
  {
    hide Listed, DueIn;
    NoneListed(DueIn(h, g), lo);
    assert MessagesOf([]) == [];
  }

  lemma ListsJoin(h: Host, g: Graph, xs: seq<FlowError>, ps: seq<Place>, lo: Place, mid: Place, ys: seq<FlowError>,
                  qs: seq<Place>, hi: Place)
    requires Lists(h, g, xs, ps, lo, mid) && Lists(h, g, ys, qs, mid, hi) && NotAfter(lo, mid) && NotAfter(mid, hi)
    ensures Lists(h, g, xs + ys, ps + qs, lo, hi)
  {
    hide Listed, DueIn, MessageOf;
    JoinListed(DueIn(h, g), MessagesOf(xs), ps, lo, mid, MessagesOf(ys), qs, hi);
    assert MessagesOf(xs + ys) == MessagesOf(xs) + MessagesOf(ys);
  }

  /** Nothing more is due up to a later place. */
  lemma ListsWiden(h: Host, g: Graph, xs: seq<FlowError>, ps: seq<Place>, lo: Place, mid: Place, hi: Place)
    requires Lists(h, g, xs, ps, lo, mid) && NotAfter(mid, hi)
    requires forall p, m | Within(p, mid, hi) :: !Due(h, g, p, m)
    ensures Lists(h, g, xs, ps, lo, hi)
  {
    hide Listed, Due;
    WidenListed(DueIn(h, g), MessagesOf(xs), ps, lo, mid, hi);
  }

  lemma {:induction false} ToldMessages(fails: seq<bool>, errors: seq<FlowError>, k: nat)
    requires k <= |fails| == |errors|
    ensures MessagesOf(Told(fails, errors, k)) == Told(fails, MessagesOf(errors), k)
  {
    hide MessageOf;
    if k > 0 { ToldMessages(fails, errors, k - 1); }
  }

  /** The rules from `p` on are the checks of the run. */
  ghost predicate ChecksAre(h: Host, g: Graph, fails: seq<bool>, errors: seq<FlowError>, p: Place)
    requires |fails| == |errors|
  {
    forall i, m | 0 <= i < |fails| :: Due(h, g, Later(p, i), m) <==> fails[i] && m == MessageOf(errors[i])
  }

  /** A run of checks, and nothing else due before `hi`. */
  lemma ChecksListed(h: Host, g: Graph, fails: seq<bool>, errors: seq<FlowError>, p: Place, hi: Place)
    returns (places: seq<Place>)
    requires |fails| == |errors| && ChecksAre(h, g, fails, errors, p) && NotAfter(Later(p, |fails|), hi)
    requires forall q, m | Within(q, Later(p, |fails|), hi) :: !Due(h, g, q, m)
    ensures Lists(h, g, Told(fails, errors, |fails|), places, p, hi)
  {
    hide Listed, Due, MessageOf, Told;
    assert Runs(DueIn(h, g), fails, MessagesOf(errors), p);
    places := RunListed(DueIn(h, g), fails, MessagesOf(errors), p, hi);
    ToldMessages(fails, errors, |fails|);
  }

  // ----- stage by stage -----

  lemma FourChecks(fails: seq<bool>, errors: seq<FlowError>)
    requires |fails| == |errors| >= 4
    ensures Told(fails, errors, 4) == When(fails[0], errors[0]) + When(fails[1], errors[1])
                                        + When(fails[2], errors[2]) + When(fails[3], errors[3])
  {
    assert Told(fails, errors, 1) == When(fails[0], errors[0]);
    assert Told(fails, errors, 2) == Told(fails, errors, 1) + When(fails[1], errors[1]);
    assert Told(fails, errors, 3) == Told(fails, errors, 2) + When(fails[2], errors[2]);
  }

  ghost function GraphFails(g: Graph): (fails: seq<bool>)
    ensures |fails| == 4
  {
    [!Distinct(IdsOf(g.nodes)), !Distinct(EdgeIdsOf(g.edges)), !OneStart(g.nodes), !EndpointsExist(g)]
  }

  const GRAPH_ERRORS: seq<FlowError> := [DuplicateNodeIds, DuplicateEdgeIds, StartCount, DanglingEdge]

  lemma GraphErrorsAre(g: Graph)
    ensures GraphErrors(g) == Told(GraphFails(g), GRAPH_ERRORS, 4)
  {
    SetSizeIsDistinctness(IdsOf(g.nodes));
    SetSizeIsDistinctness(EdgeIdsOf(g.edges));
    OneStartIsCountOne(g.nodes);
    FourChecks(GraphFails(g), GRAPH_ERRORS);
    hide Told, When, SetOf, CountKind, OneStart, Distinct, IdsOf, EdgeIdsOf;
  }

  lemma GraphRuns(h: Host, g: Graph)
    ensures ChecksAre(h, g, GraphFails(g), GRAPH_ERRORS, Place(0, 0, 0))
  {
    hide Distinct, OneStart, EndpointsExist, IdsOf, EdgeIdsOf;
    forall i, m | 0 <= i < 4
      ensures Due(h, g, Place(0, 0, i), m) <==> GraphFails(g)[i] && m == MessageOf(GRAPH_ERRORS[i])
    {
      GraphRule(g, i, m);
      hide GraphFails, BreaksGraph, MessageOf;
    }
  }

  lemma GraphRule(g: Graph, rule: nat, message: string)
    requires rule < 4
    ensures BreaksGraph(g, rule, message) <==> GraphFails(g)[rule] && message == MessageOf(GRAPH_ERRORS[rule])
  {
    hide Distinct, OneStart, EndpointsExist, IdsOf, EdgeIdsOf;
    if rule == 0 {} else if rule == 1 {} else if rule == 2 {} else { assert rule == 3; }
  }

  lemma GraphListed(h: Host, g: Graph) returns (places: seq<Place>)
    ensures Lists(h, g, GraphErrors(g), places, Place(0, 0, 0), Place(1, 0, 0))
  {
    hide Lists, ChecksAre, GraphFails, Told, BreaksGraph;
    GraphErrorsAre(g);
    GraphRuns(h, g);
    forall q, m | Within(q, Place(0, 0, 4), Place(1, 0, 0)) ensures !Due(h, g, q, m) {
      NoMoreAboutGraph(g, q.rule, m);
    }
    places := ChecksListed(h, g, GraphFails(g), GRAPH_ERRORS, Place(0, 0, 0), Place(1, 0, 0));
  }

  lemma NoMoreAboutGraph(g: Graph, rule: nat, message: string)
    ensures rule >= 4 ==> !BreaksGraph(g, rule, message)
  {
  }

  ghost function EdgeFails(g: Graph, i: nat): (fails: seq<bool>)
    requires i < |g.edges|
    ensures |fails| == 3
  {
    var e := g.edges[i];
    var from, to := FindNode(g.nodes, e.source), FindNode(g.nodes, e.target);
    [OutputTaken(g.edges, i), from.Some? && e.port !in FlowPorts(from.value), to.Some? && to.value.kind == Start]
  }

  function EdgeComplaints(g: Graph, i: nat): (errors: seq<FlowError>)
    requires i < |g.edges|
    ensures |errors| == 3
  {
    var from := FindNode(g.nodes, g.edges[i].source);
    [DuplicatePort, InvalidPort(if from.Some? then from.value.caption else ""), StartReentry]
  }

  lemma EdgeErrorsAre(g: Graph, i: nat)
    requires i < |g.edges|
    ensures When(OutputTaken(g.edges, i), DuplicatePort) + EndpointErrors(g, g.edges[i])
         == Told(EdgeFails(g, i), EdgeComplaints(g, i), 3)
  {
    hide FindNode, FlowPorts, OutputTaken;
    var fails, errors := EdgeFails(g, i), EdgeComplaints(g, i);
    assert Told(fails, errors, 1) == When(fails[0], errors[0]);
    assert Told(fails, errors, 2) == Told(fails, errors, 1) + When(fails[1], errors[1]);
  }

  lemma EdgeRule(g: Graph, i: nat, rule: nat, message: string)
    requires i < |g.edges| && rule < 3
    ensures BreaksEdge(g, i, rule, message) <==>
      EdgeFails(g, i)[rule] && message == MessageOf(EdgeComplaints(g, i)[rule])
  {
    hide FindNode, FlowPorts;
    if rule == 0 {} else if rule == 1 {} else { assert rule == 2; }
  }

  lemma NoMoreAboutEdge(g: Graph, i: nat, rule: nat, message: string)
    requires i < |g.edges|
    ensures rule >= 3 ==> !BreaksEdge(g, i, rule, message)
  {
    hide FindNode, FlowPorts;
  }

  lemma EdgeListed(h: Host, g: Graph, i: nat) returns (places: seq<Place>)
    requires i < |g.edges|
    ensures Lists(h, g, When(OutputTaken(g.edges, i), DuplicatePort) + EndpointErrors(g, g.edges[i]), places,
                  Place(1, i, 0), Place(1, i + 1, 0))
  {
    hide Lists, EdgeFails, EdgeComplaints, Told, BreaksEdge, EndpointErrors, MessageOf, OutputTaken;
    EdgeErrorsAre(g, i);
    assert ChecksAre(h, g, EdgeFails(g, i), EdgeComplaints(g, i), Place(1, i, 0)) by {
      forall r, m | 0 <= r < 3
        ensures Due(h, g, Later(Place(1, i, 0), r), m) <==>
          EdgeFails(g, i)[r] && m == MessageOf(EdgeComplaints(g, i)[r])
      {
        EdgeRule(g, i, r, m);
      }
    }
    forall q, m | Within(q, Place(1, i, 3), Place(1, i + 1, 0)) ensures !Due(h, g, q, m) {
      NoMoreAboutEdge(g, i, q.rule, m);
    }
    hide ChecksAre, Due;
    places := ChecksListed(h, g, EdgeFails(g, i), EdgeComplaints(g, i), Place(1, i, 0), Place(1, i + 1, 0));
  }

  lemma {:induction false} EdgesListed(h: Host, g: Graph, k: nat) returns (places: seq<Place>)
    requires k <= |g.edges|
    ensures Lists(h, g, EdgeErrors(g, k), places, Place(1, 0, 0), Place(1, k, 0))
  {
    hide Lists, EndpointErrors, Due, When, OutputTaken;
    if k == 0 {
      NothingListed(h, g, Place(1, 0, 0));
      places := [];
    } else {
      var earlier := EdgesListed(h, g, k - 1);
      var own := EdgeListed(h, g, k - 1);
      var errors := When(OutputTaken(g.edges, k - 1), DuplicatePort) + EndpointErrors(g, g.edges[k - 1]);
      ListsJoin(h, g, EdgeErrors(g, k - 1), earlier, Place(1, 0, 0), Place(1, k - 1, 0), errors, own, Place(1, k, 0));
      assert EdgeErrors(g, k) == EdgeErrors(g, k - 1) + errors;
      places := earlier + own;
    }
  }

  /** No connection is left to complain about. */
  lemma AllEdgesListed(h: Host, g: Graph) returns (places: seq<Place>)
    ensures Lists(h, g, EdgeErrors(g, |g.edges|), places, Place(1, 0, 0), Place(2, 0, 0))
  {
    hide Lists, EdgeErrors, BreaksEdge;
    places := EdgesListed(h, g, |g.edges|);
    ListsWiden(h, g, EdgeErrors(g, |g.edges|), places, Place(1, 0, 0), Place(1, |g.edges|, 0), Place(2, 0, 0));
  }

  ghost function PortFails(g: Graph, n: Node): (fails: seq<bool>)
    ensures |fails| == |FlowPorts(n)|
    ensures forall i | 0 <= i < |fails| :: fails[i] == !Connected(g.edges, n.id, FlowPorts(n)[i])
  {
    seq(|FlowPorts(n)|, i requires 0 <= i < |FlowPorts(n)| => !Connected(g.edges, n.id, FlowPorts(n)[i]))
  }

  function PortComplaints(n: Node): (errors: seq<FlowError>)
    ensures |errors| == |FlowPorts(n)|
    ensures forall i | 0 <= i < |errors| :: errors[i] == MissingConnection(n.caption, FlowPorts(n)[i])
  {
    seq(|FlowPorts(n)|, i requires 0 <= i < |FlowPorts(n)| => MissingConnection(n.caption, FlowPorts(n)[i]))
  }

  lemma {:induction false} PortErrorsAre(g: Graph, n: Node, k: nat)
    requires k <= |FlowPorts(n)|
    ensures PortErrors(g.edges, n, FlowPorts(n), k) == Told(PortFails(g, n), PortComplaints(n), k)
  {
    hide FlowPorts, PortFails, PortComplaints;
    if k > 0 { PortErrorsAre(g, n, k - 1); }
  }

  lemma EightChecks(fails: seq<bool>, errors: seq<FlowError>)
    requires |fails| == |errors| == 8
    ensures Told(fails, errors, 8) == When(fails[0], errors[0]) + When(fails[1], errors[1])
                                        + When(fails[2], errors[2]) + When(fails[3], errors[3])
                                        + When(fails[4], errors[4]) + When(fails[5], errors[5])
                                        + When(fails[6], errors[6]) + When(fails[7], errors[7])
  {
    FourChecks(fails, errors);
    assert Told(fails, errors, 5) == Told(fails, errors, 4) + When(fails[4], errors[4]);
    assert Told(fails, errors, 6) == Told(fails, errors, 5) + When(fails[5], errors[5]);
    assert Told(fails, errors, 7) == Told(fails, errors, 6) + When(fails[6], errors[6]);
  }

  lemma ConfigErrorsAre(h: Host, n: Node)
    ensures ConfigErrors(h, n) == Told(SettingFails(h, n), SettingErrors(n), 8)
  {
    EightChecks(SettingFails(h, n), SettingErrors(n));
    hide When, Told, TextOk, SafeKeyField, PositiveTimeout, FlowCaptureVersionOk, MenuOptionsOk, ConditionOk,
         ValueText;
  }

  lemma PortRule(g: Graph, n: Node, i: nat, m: string)
    requires i < |FlowPorts(n)|
    ensures PortFails(g, n)[i] && m == MessageOf(PortComplaints(n)[i]) <==>
      !Connected(g.edges, n.id, FlowPorts(n)[i]) && m == n.caption + ": conecte a saída " + FlowPorts(n)[i] + "."
  {
    hide FlowPorts, Connected, PortFails, PortComplaints;
  }

  lemma PortRuns(h: Host, g: Graph, i: nat)
    requires i < |g.nodes| && !g.nodes[i].kind.Other?
    ensures ChecksAre(h, g, PortFails(g, g.nodes[i]), PortComplaints(g.nodes[i]), Place(2, i, 0))
  {
    var n := g.nodes[i];
    hide FlowPorts, PortFails, PortComplaints, Connected, MessageOf, BreaksSetting;
    forall r, m | 0 <= r < |FlowPorts(n)|
      ensures Due(h, g, Later(Place(2, i, 0), r), m) <==>
        PortFails(g, n)[r] && m == MessageOf(PortComplaints(n)[r])
    {
      PortRule(g, n, r, m);
      assert Later(Place(2, i, 0), r) == Place(2, i, r);
    }
  }

  lemma PortsListed(h: Host, g: Graph, i: nat) returns (places: seq<Place>)
    requires i < |g.nodes| && !g.nodes[i].kind.Other?
    ensures var n := g.nodes[i];
      Lists(h, g, PortErrors(g.edges, n, FlowPorts(n), |FlowPorts(n)|), places, Place(2, i, 0),
            Place(2, i, |FlowPorts(n)|))
  {
    var n := g.nodes[i];
    hide FlowPorts, PortFails, PortComplaints, Lists, Told, PortErrors, ChecksAre, Due;
    PortErrorsAre(g, n, |FlowPorts(n)|);
    PortRuns(h, g, i);
    places := ChecksListed(h, g, PortFails(g, n), PortComplaints(n), Place(2, i, 0), Place(2, i, |FlowPorts(n)|));
  }

  lemma SettingsListed(h: Host, g: Graph, i: nat) returns (places: seq<Place>)
    requires i < |g.nodes| && !g.nodes[i].kind.Other?
    ensures var n := g.nodes[i];
      Lists(h, g, ConfigErrors(h, n), places, Place(2, i, |FlowPorts(n)|), Place(2, i + 1, 0))
  {
    var n := g.nodes[i];
    var lo, hi := Place(2, i, |FlowPorts(n)|), Place(2, i + 1, 0);
    hide FlowPorts, SettingFails, SettingErrors, Lists, Told, ConfigErrors, BreaksSetting, MessageOf;
    ConfigErrorsAre(h, n);
    assert ChecksAre(h, g, SettingFails(h, n), SettingErrors(n), lo) by {
      forall r, m | 0 <= r < 8
        ensures Due(h, g, Later(lo, r), m) <==> SettingFails(h, n)[r] && m == MessageOf(SettingErrors(n)[r])
      {
        SettingAt(h, n, r, m);
      }
    }
    forall q, m | Within(q, Later(lo, 8), hi) ensures !Due(h, g, q, m) {
      NoMoreAboutSettings(h, n, q.rule - |FlowPorts(n)|, m);
    }
    hide ChecksAre, Due;
    places := ChecksListed(h, g, SettingFails(h, n), SettingErrors(n), lo, hi);
  }

  lemma NoMoreAboutSettings(h: Host, n: Node, rule: nat, message: string)
    ensures rule >= 8 ==> !BreaksSetting(h, n, rule, message)
  {
    hide SettingText;
  }

  lemma UnknownListed(h: Host, g: Graph, i: nat) returns (places: seq<Place>)
    requires i < |g.nodes| && g.nodes[i].kind.Other?
    ensures var n := g.nodes[i];
      Lists(h, g, [UnknownKind(n.caption, n.kind.name)], places, Place(2, i, 0), Place(2, i + 1, 0))
  {
    var n := g.nodes[i];
    hide Lists;
    places := ChecksListed(h, g, [true], [UnknownKind(n.caption, n.kind.name)], Place(2, i, 0), Place(2, i + 1, 0));
  }

  lemma NodeListed(h: Host, g: Graph, i: nat) returns (places: seq<Place>)
    requires i < |g.nodes|
    ensures Lists(h, g, NodeErrorsOf(h, g, g.nodes[i]), places, Place(2, i, 0), Place(2, i + 1, 0))
  {
    var n := g.nodes[i];
    hide Lists, FlowPorts, PortErrors, ConfigErrors, Due;
    if n.kind.Other? {
      places := UnknownListed(h, g, i);
    } else {
      var outputs := PortsListed(h, g, i);
      var settings := SettingsListed(h, g, i);
      ListsJoin(h, g, PortErrors(g.edges, n, FlowPorts(n), |FlowPorts(n)|), outputs, Place(2, i, 0),
                Place(2, i, |FlowPorts(n)|), ConfigErrors(h, n), settings, Place(2, i + 1, 0));
      places := outputs + settings;
    }
  }

  lemma {:induction false} NodesListed(h: Host, g: Graph, k: nat) returns (places: seq<Place>)
    requires k <= |g.nodes|
    ensures Lists(h, g, NodeErrors(h, g, k), places, Place(2, 0, 0), Place(2, k, 0))
  {
    hide Lists, NodeErrorsOf, Due;
    if k == 0 {
      NothingListed(h, g, Place(2, 0, 0));
      places := [];
    } else {
      var earlier := NodesListed(h, g, k - 1);
      var own := NodeListed(h, g, k - 1);
      ListsJoin(h, g, NodeErrors(h, g, k - 1), earlier, Place(2, 0, 0), Place(2, k - 1, 0),
                NodeErrorsOf(h, g, g.nodes[k - 1]), own, Place(2, k, 0));
      places := earlier + own;
    }
  }

  lemma AllNodesListed(h: Host, g: Graph) returns (places: seq<Place>)
    ensures Lists(h, g, NodeErrors(h, g, |g.nodes|), places, Place(2, 0, 0), Place(3, 0, 0))
  {
    hide Lists, NodeErrors, BreaksNode;
    places := NodesListed(h, g, |g.nodes|);
    ListsWiden(h, g, NodeErrors(h, g, |g.nodes|), places, Place(2, 0, 0), Place(2, |g.nodes|, 0), Place(3, 0, 0));
  }

  ghost function SearchFails(g: Graph): (fails: seq<bool>)
    ensures |fails| == 2
  {
    [SomeBlockIsLost(g), SomeCycleIsFound(g)]
  }

  const SEARCH_ERRORS: seq<FlowError> := [UnreachableNode, UnguardedCycle]

  lemma SearchErrorsAre(g: Graph)
    ensures SearchErrors(g) == Told(SearchFails(g), SEARCH_ERRORS, 2)
  {
    hide ReachableFromStart, CycleFrom, WaitingIds;
    var fails := SearchFails(g);
    assert Told(fails, SEARCH_ERRORS, 1) == When(fails[0], UnreachableNode);
  }

  lemma SearchMessages()
    ensures MessageOf(UnreachableNode) == "Há blocos sem caminho a partir do início."
    ensures MessageOf(UnguardedCycle) == "Há um ciclo sem captura de resposta. Inclua uma espera por nova mensagem."
  {
  }

  lemma SearchRule(g: Graph, rule: nat, message: string)
    requires rule < 2
    ensures BreaksSearch(g, rule, message) <==> SearchFails(g)[rule] && message == MessageOf(SEARCH_ERRORS[rule])
  {
    hide SomeBlockIsLost, SomeCycleIsFound, MessageOf;
    SearchMessages();
    if rule == 0 {} else { assert rule == 1; }
  }

  lemma NoMoreSearches(g: Graph, rule: nat, message: string)
    ensures rule >= 2 ==> !BreaksSearch(g, rule, message)
  {
    hide SomeBlockIsLost, SomeCycleIsFound;
  }

  lemma SearchRuns(h: Host, g: Graph)
    ensures ChecksAre(h, g, SearchFails(g), SEARCH_ERRORS, Place(3, 0, 0))
  {
    hide SearchFails, BreaksSearch, MessageOf;
    forall i, m | 0 <= i < 2
      ensures Due(h, g, Later(Place(3, 0, 0), i), m) <==> SearchFails(g)[i] && m == MessageOf(SEARCH_ERRORS[i])
    {
      SearchRule(g, i, m);
      assert Later(Place(3, 0, 0), i) == Place(3, 0, i);
    }
  }

  lemma SearchListed(h: Host, g: Graph) returns (places: seq<Place>)
    ensures Lists(h, g, SearchErrors(g), places, Place(3, 0, 0), Place(4, 0, 0))
  {
    hide Lists, ChecksAre, SearchFails, Told, BreaksSearch, MessageOf;
    SearchErrorsAre(g);
    SearchRuns(h, g);
    forall q, m | Within(q, Place(3, 0, 2), Place(4, 0, 0)) ensures !Due(h, g, q, m) {
      NoMoreSearches(g, q.rule, m);
    }
    places := ChecksListed(h, g, SearchFails(g), SEARCH_ERRORS, Place(3, 0, 0), Place(4, 0, 0));
  }

  // ----- the whole list -----

  ghost function AllErrors(h: Host, g: Graph): seq<FlowError> {
    GraphErrors(g) + EdgeErrors(g, |g.edges|) + NodeErrors(h, g, |g.nodes|) + SearchErrors(g)
  }

  lemma AllListedInOrder(h: Host, g: Graph) returns (places: seq<Place>)
    ensures Lists(h, g, AllErrors(h, g), places, Place(0, 0, 0), Place(4, 0, 0))
  {
    hide Lists, GraphErrors, EdgeErrors, NodeErrors, SearchErrors, Due;
    var p0, p1, p2, p3, p4 := Place(0, 0, 0), Place(1, 0, 0), Place(2, 0, 0), Place(3, 0, 0), Place(4, 0, 0);
    var a := GraphListed(h, g);
    var b := AllEdgesListed(h, g);
    var c := AllNodesListed(h, g);
    var d := SearchListed(h, g);
    var ab := GraphErrors(g) + EdgeErrors(g, |g.edges|);
    ListsJoin(h, g, GraphErrors(g), a, p0, p1, EdgeErrors(g, |g.edges|), b, p2);
    ListsJoin(h, g, ab, a + b, p0, p2, NodeErrors(h, g, |g.nodes|), c, p3);
    ListsJoin(h, g, ab + NodeErrors(h, g, |g.nodes|), a + b + c, p0, p3, SearchErrors(g), d, p4);
    places := a + b + c + d;
  }

  /** Nothing is due outside of the four stages. */
  lemma AllDueIsListed(h: Host, g: Graph, errors: seq<FlowError>, places: seq<Place>, p: Place, m: string)
    requires Lists(h, g, errors, places, Place(0, 0, 0), Place(4, 0, 0)) && Due(h, g, p, m)
    ensures p in places
  {
    hide BreaksGraph, BreaksEdge, BreaksNode, BreaksSearch, MessageOf;
    assert Within(p, Place(0, 0, 0), Place(4, 0, 0));
  }

  /** A rule has one message at each place. */
  lemma OneMessage(h: Host, g: Graph, p: Place, m: string, other: string)
    requires Due(h, g, p, m) && Due(h, g, p, other)
    ensures m == other
  {
    hide Fails, FlowPorts, Connected, FindNode, ReachableFromStart, CycleFrom, WaitingIds, SettingText, Distinct,
         OneStart, EndpointsExist;
  }

  /** The place where `m` stands first. */
  predicate FirstIn(messages: seq<string>, k: nat, m: string) {
    k < |messages| && messages[k] == m && m !in messages[..k]
  }

  /** Without repeats, messages keep the order in which they first occur. */
  lemma {:induction false} DedupKeepsTheOrder(messages: seq<string>)
    ensures forall i, j, a: nat, b: nat | 0 <= i < j < |Dedup(messages)| && FirstIn(messages, a, Dedup(messages)[i])
              && FirstIn(messages, b, Dedup(messages)[j]) :: a < b
  {
    if messages != [] {
      var n := |messages| - 1;
      var head, last := messages[..n], messages[n];
      DedupKeepsTheOrder(head);
      var r, was := Dedup(messages), Dedup(head);
      assert messages == head + [last];
      forall i, j, a: nat, b: nat | 0 <= i < j < |r| && FirstIn(messages, a, r[i]) && FirstIn(messages, b, r[j])
        ensures a < b
      {
        assert r[i] == was[i] && was[i] in head;
        assert a < n by {
          assert messages[..n] == head;
        }
        assert messages[..a] == head[..a] && FirstIn(head, a, was[i]);
        if b < n { assert messages[..b] == head[..b]; assert messages[b] == head[b]; assert r[j] in head;
          assert r[j] == was[j]; assert FirstIn(head, b, was[j]); }
      }
    }
  }

  // ----- the report -----

  /** The message is due here, and at no place before. */
  ghost predicate DueFirst(h: Host, g: Graph, p: Place, m: string) {
    Due(h, g, p, m) && forall q | Before(q, p) :: !Due(h, g, q, m)
  }

  lemma DueIsFirstSomewhere(h: Host, g: Graph, p: Place, m: string) returns (q: Place)
    requires Due(h, g, p, m)
    ensures DueFirst(h, g, q, m)
    decreases p.stage, p.element, p.rule
  {
    hide Due;
    if earlier :| Before(earlier, p) && Due(h, g, earlier, m) {
      q := DueIsFirstSomewhere(h, g, earlier, m);
    } else {
      q := p;
    }
  }

  /** The position of an error in the list says where its message is due first. */
  lemma FirstPlace(h: Host, g: Graph, places: seq<Place>, p: Place, m: string) returns (k: nat)
    requires Lists(h, g, AllErrors(h, g), places, Place(0, 0, 0), Place(4, 0, 0)) && DueFirst(h, g, p, m)
    ensures k < |places| == |AllErrors(h, g)| && places[k] == p && FirstIn(MessagesOf(AllErrors(h, g)), k, m)
  {
    hide Due, AllErrors, MessageOf;
    AllDueIsListed(h, g, AllErrors(h, g), places, p, m);
    k :| 0 <= k < |places| && places[k] == p;
    var messages := MessagesOf(AllErrors(h, g));
    OneMessage(h, g, p, m, messages[k]);
    forall j | 0 <= j < k ensures messages[j] != m {
      assert Before(places[j], places[k]) && Due(h, g, places[j], messages[j]);
    }
  }

  /**
   A flow of the right shape is told exactly the messages that are due, each once, in the order of the places where
   they are due first.
   */
  lemma ComplaintsAreInOrder(h: Host, g: Graph, r: seq<string>)
    requires Shape(h, g) && r == FlowErrors(h, g)
    ensures forall m :: m in r <==> exists p :: DueFirst(h, g, p, m)
    ensures forall i, j, p, q | 0 <= i < j < |r| && DueFirst(h, g, p, r[i]) && DueFirst(h, g, q, r[j]) :: Before(p, q)
  {
    hide Shape, DueFirst, Lists, Due, MessageOf, AllErrors, GraphErrors, EdgeErrors, NodeErrors, SearchErrors, Dedup,
         FirstIn, MessagesOf;
    var places := AllListedInOrder(h, g);
    var messages := MessagesOf(AllErrors(h, g));
    assert r == Dedup(messages) by { hide *; FlowErrorsAre(h, g); }
    forall m ensures m in r <==> exists p :: DueFirst(h, g, p, m) { MemberIff(h, g, places, m); }
    DedupKeepsTheOrder(messages);
    forall i, j, p, q | 0 <= i < j < |r| && DueFirst(h, g, p, r[i]) && DueFirst(h, g, q, r[j]) ensures Before(p, q) {
      var a := FirstPlace(h, g, places, p, r[i]);
      var b := FirstPlace(h, g, places, q, r[j]);
      assert a < b;
      InOrder(h, g, places, a, b);
    }
  }

  lemma FlowErrorsAre(h: Host, g: Graph)
    requires Shape(h, g)
    ensures FlowErrors(h, g) == Dedup(MessagesOf(AllErrors(h, g)))
  {
    hide Shape, Dedup, MessagesOf, GraphErrors, EdgeErrors, NodeErrors, SearchErrors;
  }

  lemma InOrder(h: Host, g: Graph, places: seq<Place>, a: nat, b: nat)
    requires Lists(h, g, AllErrors(h, g), places, Place(0, 0, 0), Place(4, 0, 0)) && a < b < |places|
    ensures Before(places[a], places[b])
  {
    hide Due, AllErrors, Before, Within;
  }

  lemma MemberIff(h: Host, g: Graph, places: seq<Place>, m: string)
    requires Lists(h, g, AllErrors(h, g), places, Place(0, 0, 0), Place(4, 0, 0))
    ensures m in MessagesOf(AllErrors(h, g)) <==> exists p :: DueFirst(h, g, p, m)
  {
    hide Due, AllErrors, MessageOf, DueFirst;
    var messages := MessagesOf(AllErrors(h, g));
    if m in messages {
      var k :| 0 <= k < |messages| && messages[k] == m;
      assert Due(h, g, places[k], m);
      var p := DueIsFirstSomewhere(h, g, places[k], m);
    }
    if p :| DueFirst(h, g, p, m) {
      var k := FirstPlace(h, g, places, p, m);
      assert FirstIn(messages, k, m);
    }
  }

  /** The first message, which stops the flow from running, is the one that is due before all others. */
  lemma FirstComplaintIsDueFirst(h: Host, g: Graph, m: string)
    requires Shape(h, g)
    ensures FlowErrors(h, g) != [] && FlowErrors(h, g)[0] == m <==>
      exists p :: Due(h, g, p, m) && forall q, n | Before(q, p) :: !Due(h, g, q, n)
  {
    hide Shape, DueFirst, Due, FlowErrors;
    var r := FlowErrors(h, g);
    ComplaintsAreInOrder(h, g, r);
    if r != [] && r[0] == m {
      assert m in r;
      var p :| DueFirst(h, g, p, m);
      FirstOfAll(h, g, r, p);
    }
    if p :| Due(h, g, p, m) && forall q, n | Before(q, p) :: !Due(h, g, q, n) {
      assert DueFirst(h, g, p, m) by { hide *; NothingBefore(h, g, p, m); }
      assert m in r;
      var i :| 0 <= i < |r| && r[i] == m;
      if i > 0 {
        assert r[0] in r;
        var q :| DueFirst(h, g, q, r[0]);
        assert Before(q, p);
        DueThere(h, g, q, r[0]);
        assert false;
      }
    }
  }

  lemma DueThere(h: Host, g: Graph, p: Place, m: string)
    requires DueFirst(h, g, p, m)
    ensures Due(h, g, p, m)
  {
    hide Due;
  }

  lemma NothingBefore(h: Host, g: Graph, p: Place, m: string)
    requires Due(h, g, p, m) && forall q, n | Before(q, p) :: !Due(h, g, q, n)
    ensures DueFirst(h, g, p, m)
  {
    hide Due;
  }

  lemma FirstOfAll(h: Host, g: Graph, r: seq<string>, p: Place)
    requires r != [] && DueFirst(h, g, p, r[0])
    requires forall m :: m in r <==> exists p :: DueFirst(h, g, p, m)
    requires forall i, j, p, q | 0 <= i < j < |r| && DueFirst(h, g, p, r[i]) && DueFirst(h, g, q, r[j]) :: Before(p, q)
    ensures Due(h, g, p, r[0]) && forall q, n | Before(q, p) :: !Due(h, g, q, n)
  {
    hide Due, DueFirst;
    DueThere(h, g, p, r[0]);
    forall q, n | Due(h, g, q, n) ensures !Before(q, p) {
      var first := DueIsFirstBy(h, g, q, n);
      assert n in r;
      var j :| 0 <= j < |r| && r[j] == n;
      if j == 0 {
        OneFirst(h, g, p, first, n);
      } else {
        assert DueFirst(h, g, first, r[j]) && DueFirst(h, g, p, r[0]);
        assert Before(p, first);
      }
    }
  }

  lemma DueIsFirstBy(h: Host, g: Graph, p: Place, m: string) returns (q: Place)
    requires Due(h, g, p, m)
    ensures DueFirst(h, g, q, m) && NotAfter(q, p)
  {
    q := DueIsFirstSomewhere(h, g, p, m);
    hide Due;
    assert p == q || Before(p, q) || Before(q, p);
  }

  lemma OneFirst(h: Host, g: Graph, p: Place, q: Place, m: string)
    requires DueFirst(h, g, p, m) && DueFirst(h, g, q, m)
    ensures p == q
  {
    hide Due;
    assert p == q || Before(p, q) || Before(q, p);
  }
}
