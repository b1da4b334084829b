/**
 What the second validator reports, and in which order: a table of rules, each with its place and its diagnostic,
 that does not look at the checks themselves.
 */
module AutomationComplaints {
  import opened Wrappers
  import opened Json
  import opened FlowGraph
  import opened GraphSearch
  import opened FlowValidator
  import opened AutomationValidator
  import opened ValidatorAgreement
  import opened Listings
  import opened FlowComplaints

  // ----- outputs -----

  /** A versioned block gives up after too many attempts. */
  predicate Exhausts(h: Host, n: Node) {
    || (n.kind == Input && (VersionIs(h, n, "inputConfigVersion", 2.0) || VersionIs(h, n, "inputConfigVersion", 3.0)))
    || (n.kind == Menu && (VersionIs(h, n, "menuConfigVersion", 1.0) || VersionIs(h, n, "menuConfigVersion", 2.0)))
  }

  /** It does not wait for ever: any versioned input, but only a menu whose version is the number 2 itself. */
  predicate TimesOut(h: Host, n: Node) {
    && "timeoutSeconds" in n.data
    && ((n.kind == Input && (VersionIs(h, n, "inputConfigVersion", 1.0) || VersionIs(h, n, "inputConfigVersion", 2.0)
                             || VersionIs(h, n, "inputConfigVersion", 3.0)))
        || (n.kind == Menu && "menuConfigVersion" in n.data && n.data["menuConfigVersion"] == Number("2")))
  }

  predicate VersionIs(h: Host, n: Node, key: string, version: real) {
    key in n.data && h.number(n.data[key]) == Finite(version)
  }

  /** The outputs of a block: those of its kind, then those its version adds; a new kind has what its schema says. */
  function OutputsOf(c: Catalog, h: Host, n: Node): seq<string> {
    if n.kind.Other? then if c.known(n.kind.name) then c.otherPorts(n) else ["next"]
    else FlowPorts(n) + (if Exhausts(h, n) then ["exhausted"] else []) + if TimesOut(h, n) then ["timeout"] else []
  }

  lemma OutputsAre(c: Catalog, h: Host, n: Node)
    ensures AutomationPorts(c, h, n) == OutputsOf(c, h, n)
  {
    hide MenuOptions;
    match n.kind
    case Input => assert FlowPorts(n) == ["next"];
    case Menu => assert FlowPorts(n) == OptionPorts(MenuOptions(n));
    case _ =>
  }

  // ----- settings -----

  predicate Nth(list: seq<string>, rule: nat, path: string) {
    rule < |list| && path == list[rule]
  }

  /** A setting is wrong: by a rule of its own, or by the schema of the settings its version adds. */
  ghost predicate BadSetting(c: Catalog, h: Host, n: Node, rule: nat, path: string) {
    match n.kind
    case Message => rule == 0 && BadText(n) && path == "text"
    case Input =>
      if "inputConfigVersion" in n.data then Nth(c.captureIssues(n.data), rule, path)
      else
        || (rule == 0 && !HasSafeKey(n, "variable") && path == "variable")
        || (rule == 1 && |ValueText(Field(n.data, "text"))| > 4096 && path == "text")
        || (rule == 2 && HasTimeout(h, n) && path == "timeout")
    case Menu =>
      || (rule == 0 && BadText(n) && path == "text")
      || (rule == 1 && !GoodOptions(n) && path == "options")
      || (rule >= 2 && "menuConfigVersion" in n.data && Nth(c.attemptIssues(n.data), rule - 2, path))
    case Condition =>
      || (rule == 0 && !HasSafeKey(n, "field") && path == "field")
      || (rule == 1 && !GoodOperator(n) && path == "operator")
    case Variable => rule == 0 && !HasSafeKey(n, "variable") && path == "variable"
    case Start => "entryConfigVersion" in n.data && Nth(c.entryIssues(n.data), rule, path)
    case Handoff => HasDestination(n) && Nth(c.handoffIssues(n.data), rule, path)
    case End => false
    case Other(_) => Nth(c.otherIssues(n), rule, path)
  }

  predicate HasDestination(n: Node) {
    "handoffVersion" in n.data || "destination" in n.data || "target" in n.data
  }

  /** A block with effects outside the conversation that the version-2 editor has not saved. */
  predicate Unconfirmed(n: Node, marker: string) {
    && n.kind.Other?
    && marker == (if n.kind.name == "media" then "mediaEffectVersion" else "conversationEffectVersion")
    && (|| n.kind.name == "media" || n.kind.name == "tag" || n.kind.name == "attribute" || n.kind.name == "note"
        || n.kind.name == "resolve" || n.kind.name == "domain")
    && Field(n.data, marker) != Some(Number("2"))
  }

  // ----- the rules -----

  ghost predicate EdgeTells(c: Catalog, h: Host, g: Graph, i: nat, rule: nat, d: Diagnostic)
    requires i < |g.edges|
  {
    var e := g.edges[i];
    var from, to := FindNode(g.nodes, e.source), FindNode(g.nodes, e.target);
    match rule
    case 0 =>
      && (exists j | 0 <= j < i :: g.edges[j].id == e.id)
      && d == Diagnostic(Some(e.source), EdgeId(e.id), DuplicateEdgeId)
    case 1 =>
      && (from.None? || to.None?)
      && d == Diagnostic(if from.Some? then Some(e.source) else None, WholeEdge(e.id), MissingNode)
    case 2 =>
      && (exists j | 0 <= j < i :: g.edges[j].source == e.source && g.edges[j].port == e.port)
      && d == Diagnostic(Some(e.source), EdgePort(e.id), DuplicatePortCode)
    case 3 =>
      && from.Some? && e.port !in OutputsOf(c, h, from.value)
      && d == Diagnostic(Some(e.source), EdgePort(e.id), InvalidPortCode)
    case 4 =>
      && to.Some? && to.value.kind == Start
      && d == Diagnostic(Some(e.source), EdgeTarget(e.id), StartReentryCode)
    case _ => false
  }

  ghost predicate NodeTells(c: Catalog, h: Host, g: Graph, i: nat, rule: nat, d: Diagnostic)
    requires i < |g.nodes|
  {
    var n := g.nodes[i];
    var outputs := OutputsOf(c, h, n);
    && d.nodeId == Some(n.id)
    && if n.kind.Other? && !c.known(n.kind.name) then rule == 0 && d.place == Kind && d.code == UnknownNodeType
       else if rule == 0 then d.place.Marker? && Unconfirmed(n, d.place.name) && d.code == ReconfigurationRequired
       else if rule <= |outputs| then
         && !Connected(g.edges, n.id, outputs[rule - 1])
         && d.place == Port(outputs[rule - 1]) && d.code == MissingConnectionCode
       else d.place.Data? && BadSetting(c, h, n, rule - 1 - |outputs|, d.place.path) && d.code == InvalidConfig
  }

  /** The diagnostic is due at this place. */
  ghost predicate Reported(c: Catalog, h: Host, g: Graph, p: Listings.Place, d: Diagnostic) {
    match p.stage
    case 0 =>
      && p.element < |g.nodes| && p.rule == 0
      && (exists j | 0 <= j < p.element :: g.nodes[j].id == g.nodes[p.element].id)
      && d == Diagnostic(Some(g.nodes[p.element].id), NodeId, DuplicateNodeId)
    case 1 => p.element == 0 && p.rule == 0 && !OneStart(g.nodes) && d == Diagnostic(None, Nodes, StartCountCode)
    case 2 => p.element < |g.edges| && EdgeTells(c, h, g, p.element, p.rule, d)
    case 3 => p.element < |g.nodes| && NodeTells(c, h, g, p.element, p.rule, d)
    case 4 =>
      && p.element < |g.nodes| && p.rule == 0 && !ReachableFromStart(g, g.nodes[p.element].id)
      && d == Diagnostic(Some(g.nodes[p.element].id), NodeId, UnreachableCode)
    case 5 =>
      && p.element == 0 && p.rule == 0
      && (exists n <- g.nodes :: CycleFrom(g.edges, AutomationWaitingIds(c, g), n.id))
      && d == Diagnostic(None, Edges, CycleWithoutInput)
    case _ => false
  }

  // ----- settings, one by one -----

  /** All of the paths that a schema names. */
  function Every(paths: seq<string>): (fails: seq<bool>)
    ensures |fails| == |paths| && forall i | 0 <= i < |fails| :: fails[i]
  {
    seq(|paths|, i => true)
  }

  ghost function SettingsFail(c: Catalog, h: Host, n: Node): seq<bool> {
    match n.kind
    case Message => [BadText(n)]
    case Input =>
      if "inputConfigVersion" in n.data then Every(c.captureIssues(n.data))
      else [!HasSafeKey(n, "variable"), |ValueText(Field(n.data, "text"))| > 4096, HasTimeout(h, n)]
    case Menu => [BadText(n), !GoodOptions(n)] + Every(MarkedIssues(c, n))
    case Condition => [!HasSafeKey(n, "field"), !GoodOperator(n)]
    case Variable => [!HasSafeKey(n, "variable")]
    case End => []
    case Other(_) => Every(c.otherIssues(n))
    case _ => Every(MarkedIssues(c, n))
  }

  ghost function SettingPaths(c: Catalog, h: Host, n: Node): (paths: seq<string>)
    ensures |paths| == |SettingsFail(c, h, n)|
  {
    match n.kind
    case Message => ["text"]
    case Input => if "inputConfigVersion" in n.data then c.captureIssues(n.data) else ["variable", "text", "timeout"]
    case Menu => ["text", "options"] + MarkedIssues(c, n)
    case Condition => ["field", "operator"]
    case Variable => ["variable"]
    case End => []
    case Other(_) => c.otherIssues(n)
    case _ => MarkedIssues(c, n)
  }

  lemma SettingRule(c: Catalog, h: Host, n: Node, rule: nat, path: string)
    ensures BadSetting(c, h, n, rule, path) <==>
      rule < |SettingsFail(c, h, n)| && SettingsFail(c, h, n)[rule] && path == SettingPaths(c, h, n)[rule]
  {
    hide BadText, GoodOptions, GoodOperator, HasSafeKey, HasTimeout, ValueText;
    MarkedAre(c, n);
    hide MarkedIssues;
  }

  /** Which schema sees the settings of a version. */
  lemma MarkedAre(c: Catalog, n: Node)
    ensures n.kind == Menu ==>
      MarkedIssues(c, n) == if "menuConfigVersion" in n.data then c.attemptIssues(n.data) else []
    ensures n.kind == Start ==>
      MarkedIssues(c, n) == if "entryConfigVersion" in n.data then c.entryIssues(n.data) else []
    ensures n.kind == Input ==>
      MarkedIssues(c, n) == if "inputConfigVersion" in n.data then c.captureIssues(n.data) else []
    ensures n.kind == Handoff ==> MarkedIssues(c, n) == if HasDestination(n) then c.handoffIssues(n.data) else []
  {
  }

  lemma KeyFieldIs(n: Node, key: string)
    ensures SafeKeyField(Field(n.data, key)) <==> HasSafeKey(n, key)
  {
    hide SafeKey;
  }

  lemma TimeoutIs(h: Host, n: Node)
    ensures PositiveTimeout(h, n.data) <==> HasTimeout(h, n)
  {
  }

  lemma FailingIsTold(failed: bool, path: string)
    ensures Failing(failed, path) == if failed then [path] else []
  {
  }

  lemma EveryIsTold(paths: seq<string>)
    ensures Told(Every(paths), paths, |paths|) == paths
  {
    AllAreTold(Every(paths), paths, |paths|);
  }

  lemma MenuIsTold(c: Catalog, h: Host, n: Node)
    requires n.kind == Menu
    ensures ConfigIssues(c, h, n) == Told(SettingsFail(c, h, n), SettingPaths(c, h, n), |SettingsFail(c, h, n)|)
  {
    TextIsBad(n);
    OptionsAreGood(n);
    OptionsAgree(n);
    hide BadText, TextOk, GoodOptions, OptionsValueOk, MenuOptionsOk, MarkedIssues, Told;
    var more := MarkedIssues(c, n);
    EveryIsTold(more);
    ToldOfMore([BadText(n), !GoodOptions(n)], ["text", "options"], Every(more), more, |more|);
    ToldOfTwo(BadText(n), !GoodOptions(n), "text", "options");
  }

  lemma InputIsTold(c: Catalog, h: Host, n: Node)
    requires n.kind == Input
    ensures ConfigIssues(c, h, n) == Told(SettingsFail(c, h, n), SettingPaths(c, h, n), |SettingsFail(c, h, n)|)
  {
    KeyFieldIs(n, "variable");
    TimeoutIs(h, n);
    hide SafeKeyField, HasSafeKey, PositiveTimeout, HasTimeout, ValueText, Told;
    if "inputConfigVersion" in n.data {
      EveryIsTold(c.captureIssues(n.data));
    } else {
      var long := |ValueText(Field(n.data, "text"))| > 4096;
      ToldOfMore([!HasSafeKey(n, "variable")], ["variable"], [long, HasTimeout(h, n)], ["text", "timeout"], 2);
      ToldOfOne(!HasSafeKey(n, "variable"), "variable");
      ToldOfTwo(long, HasTimeout(h, n), "text", "timeout");
      assert [!HasSafeKey(n, "variable")] + [long, HasTimeout(h, n)] == SettingsFail(c, h, n);
      assert ["variable"] + ["text", "timeout"] == SettingPaths(c, h, n);
    }
  }

  lemma SettingsAreTold(c: Catalog, h: Host, n: Node)
    ensures ConfigIssues(c, h, n) == Told(SettingsFail(c, h, n), SettingPaths(c, h, n), |SettingsFail(c, h, n)|)
  {
    TextIsBad(n);
    KeyFieldIs(n, "variable");
    KeyFieldIs(n, "field");
    OperatorIsGood(n);
    OperatorsAgree(Field(n.data, "operator"));
    hide BadText, TextOk, GoodOperator, OperatorOk, SafeKeyField, HasSafeKey, Told, MarkedIssues, CaptureDefaults;
    match n.kind
    case Message => ToldOfOne(BadText(n), "text");
    case Input => InputIsTold(c, h, n);
    case Menu => MenuIsTold(c, h, n);
    case Condition => ToldOfTwo(!HasSafeKey(n, "field"), !GoodOperator(n), "field", "operator");
    case Variable => ToldOfOne(!HasSafeKey(n, "variable"), "variable");
    case Start => EveryIsTold(MarkedIssues(c, n));
    case Handoff => EveryIsTold(MarkedIssues(c, n));
    case End => assert Told<string>([], [], 0) == [] by { NothingIsTold(); }
    case Other(_) => EveryIsTold(c.otherIssues(n));
  }

  lemma NothingIsTold()
    ensures Told<string>([], [], 0) == []
  {
  }

  // ----- blocks -----

  function EffectKey(n: Node): string {
    if n.kind == Other("media") then "mediaEffectVersion" else "conversationEffectVersion"
  }

  lemma UnconfirmedIff(n: Node, marker: string)
    ensures Unconfirmed(n, marker) <==> !EffectOk(n) && marker == EffectKey(n)
    ensures !EffectOk(n) ==> EffectMarker(n.kind) == Some(EffectKey(n))
  {
  }

  ghost function PortsFail(c: Catalog, h: Host, g: Graph, n: Node): (fails: seq<bool>)
    ensures |fails| == |OutputsOf(c, h, n)|
    ensures forall i | 0 <= i < |fails| :: fails[i] == !Connected(g.edges, n.id, OutputsOf(c, h, n)[i])
  {
    var ports := OutputsOf(c, h, n);
    seq(|ports|, i requires 0 <= i < |ports| => !Connected(g.edges, n.id, ports[i]))
  }

  function PortItems(n: Node, ports: seq<string>): (items: seq<Diagnostic>)
    ensures |items| == |ports|
    ensures forall i | 0 <= i < |items| :: items[i] == Diagnostic(Some(n.id), Port(ports[i]), MissingConnectionCode)
  {
    seq(|ports|, i requires 0 <= i < |ports| => Diagnostic(Some(n.id), Port(ports[i]), MissingConnectionCode))
  }

  lemma {:induction false} PortsAreTold(c: Catalog, h: Host, g: Graph, n: Node, k: nat)
    requires k <= |OutputsOf(c, h, n)|
    ensures PortDiagnostics(g, n, OutputsOf(c, h, n), k)
         == Told(PortsFail(c, h, g, n), PortItems(n, OutputsOf(c, h, n)), k)
  {
    hide OutputsOf, PortsFail, PortItems;
    if k > 0 { PortsAreTold(c, h, g, n, k - 1); }
  }

  lemma {:induction false} IssuesAreTold(n: Node, fails: seq<bool>, paths: seq<string>, k: nat)
    requires k <= |fails| == |paths|
    ensures IssueDiagnostics(n, Told(fails, paths, k)) == Told(fails, IssueDiagnostics(n, paths), k)
  {
    if k > 0 { IssuesAreTold(n, fails, paths, k - 1); }
  }

  ghost function NodeFails(c: Catalog, h: Host, g: Graph, n: Node): seq<bool> {
    if n.kind.Other? && !c.known(n.kind.name) then [true]
    else [!EffectOk(n)] + PortsFail(c, h, g, n) + SettingsFail(c, h, n)
  }

  function EffectItem(n: Node): Diagnostic {
    Diagnostic(Some(n.id), Marker(EffectKey(n)), ReconfigurationRequired)
  }

  ghost function NodeItems(c: Catalog, h: Host, n: Node): seq<Diagnostic> {
    if n.kind.Other? && !c.known(n.kind.name) then [Diagnostic(Some(n.id), Kind, UnknownNodeType)]
    else [EffectItem(n)] + PortItems(n, OutputsOf(c, h, n)) + IssueDiagnostics(n, SettingPaths(c, h, n))
  }

  lemma NodeIsTold(c: Catalog, h: Host, g: Graph, n: Node)
    ensures |NodeFails(c, h, g, n)| == |NodeItems(c, h, n)|
    ensures NodeDiagnosticsOf(c, h, g, n) == Told(NodeFails(c, h, g, n), NodeItems(c, h, n), |NodeFails(c, h, g, n)|)
  {
    UnconfirmedIff(n, "");
    OutputsAre(c, h, n);
    SettingsAreTold(c, h, n);
    hide OutputsOf, AutomationPorts, PortsFail, PortItems, EffectOk, EffectMarker, SettingsFail, SettingPaths,
         ConfigIssues, PortDiagnostics, Told, IssueDiagnostics, EffectKey;
    if n.kind.Other? && !c.known(n.kind.name) {
      ToldOfOne(true, Diagnostic(Some(n.id), Kind, UnknownNodeType));
    } else {
      var ports, paths := PortItems(n, OutputsOf(c, h, n)), IssueDiagnostics(n, SettingPaths(c, h, n));
      var a, b, more := [!EffectOk(n)], PortsFail(c, h, g, n), SettingsFail(c, h, n);
      PortsAreTold(c, h, g, n, |b|);
      IssuesAreTold(n, more, SettingPaths(c, h, n), |more|);
      ToldOfOne(!EffectOk(n), EffectItem(n));
      ToldOfMore(a, [EffectItem(n)], b, ports, |b|);
      ToldOfMore(a + b, [EffectItem(n)] + ports, more, paths, |more|);
    }
  }

  /** Whether a rule fails, by its position, and what it tells then. */
  lemma NodeRuleIs(c: Catalog, h: Host, g: Graph, n: Node, rule: nat)
    requires !(n.kind.Other? && !c.known(n.kind.name))
    ensures var fails, items, p := NodeFails(c, h, g, n), NodeItems(c, h, n), |OutputsOf(c, h, n)|;
      && |fails| == |items| == 1 + p + |SettingsFail(c, h, n)|
      && fails[0] == !EffectOk(n) && items[0] == EffectItem(n)
      && (0 < rule <= p ==> fails[rule] == PortsFail(c, h, g, n)[rule - 1])
      && (0 < rule <= p ==> items[rule] == PortItems(n, OutputsOf(c, h, n))[rule - 1])
      && (p < rule < |fails| ==> fails[rule] == SettingsFail(c, h, n)[rule - 1 - p])
      && (p < rule < |fails| ==>
            items[rule] == Diagnostic(Some(n.id), Data(SettingPaths(c, h, n)[rule - 1 - p]), InvalidConfig))
  {
    hide OutputsOf, EffectOk, EffectItem, SettingsFail, SettingPaths, PortsFail, PortItems;
  }

  lemma KnownNodeRule(c: Catalog, h: Host, g: Graph, i: nat, rule: nat, d: Diagnostic)
    requires i < |g.nodes| && !(g.nodes[i].kind.Other? && !c.known(g.nodes[i].kind.name))
    ensures var n := g.nodes[i];
      && |NodeFails(c, h, g, n)| == |NodeItems(c, h, n)|
      && (NodeTells(c, h, g, i, rule, d) <==>
            rule < |NodeFails(c, h, g, n)| && NodeFails(c, h, g, n)[rule] && d == NodeItems(c, h, n)[rule])
  {
    var n := g.nodes[i];
    var p := |OutputsOf(c, h, n)|;
    NodeRuleIs(c, h, g, n, rule);
    if rule == 0 {
      UnconfirmedIff(n, if d.place.Marker? then d.place.name else "");
      hide OutputsOf, Unconfirmed, EffectOk, EffectKey, NodeFails, NodeItems;
    } else if rule <= p {
      hide OutputsOf, Unconfirmed, Connected, NodeFails, NodeItems;
    } else {
      SettingRule(c, h, n, rule - 1 - p, if d.place.Data? then d.place.path else "");
      hide OutputsOf, BadSetting, SettingsFail, SettingPaths, NodeFails, NodeItems;
    }
  }

  lemma NodeRule(c: Catalog, h: Host, g: Graph, i: nat, rule: nat, d: Diagnostic)
    requires i < |g.nodes|
    ensures var n := g.nodes[i];
      && |NodeFails(c, h, g, n)| == |NodeItems(c, h, n)|
      && (NodeTells(c, h, g, i, rule, d) <==>
            rule < |NodeFails(c, h, g, n)| && NodeFails(c, h, g, n)[rule] && d == NodeItems(c, h, n)[rule])
  {
    var unknown := g.nodes[i].kind.Other? && !c.known(g.nodes[i].kind.name);
    if !unknown {
      hide *;
      KnownNodeRule(c, h, g, i, rule, d);
    } else {
      hide OutputsOf;
    }
  }

  ghost function ReportedIn(c: Catalog, h: Host, g: Graph): (due: (Listings.Place, Diagnostic) -> bool)
    ensures forall p, d :: due(p, d) <==> Reported(c, h, g, p, d)
  {
    (p, d) => Reported(c, h, g, p, d)
  }

  lemma NodeListed(c: Catalog, h: Host, g: Graph, i: nat) returns (places: seq<Listings.Place>)
    requires i < |g.nodes|
    ensures Listed(ReportedIn(c, h, g), NodeDiagnosticsOf(c, h, g, g.nodes[i]), places, Place(3, i, 0),
                   Place(3, i + 1, 0))
  {
    var n, due := g.nodes[i], ReportedIn(c, h, g);
    var fails, items := NodeFails(c, h, g, n), NodeItems(c, h, n);
    NodeIsTold(c, h, g, n);
    hide NodeFails, NodeItems, NodeTells, NodeDiagnosticsOf, Listed, Told;
    forall rule: nat, d
      ensures due(Later(Place(3, i, 0), rule), d) <==> rule < |fails| && fails[rule] && d == items[rule]
    {
      NodeRule(c, h, g, i, rule, d);
      assert Later(Place(3, i, 0), rule) == Place(3, i, rule);
    }
    assert Runs(due, fails, items, Place(3, i, 0));
    forall q, d | Within(q, Later(Place(3, i, 0), |fails|), Place(3, i + 1, 0)) ensures !due(q, d) {
      assert q == Later(Place(3, i, 0), q.rule);
    }
    hide ReportedIn;
    places := RunListed(due, fails, items, Place(3, i, 0), Place(3, i + 1, 0));
  }

  lemma {:induction false} NodesListed(c: Catalog, h: Host, g: Graph, k: nat) returns (places: seq<Listings.Place>)
    requires k <= |g.nodes|
    ensures Listed(ReportedIn(c, h, g), NodeDiagnostics(c, h, g, k), places, Place(3, 0, 0), Place(3, k, 0))
  {
    hide ReportedIn, Listed, NodeDiagnosticsOf;
    var due := ReportedIn(c, h, g);
    if k == 0 {
      NoneListed(due, Place(3, 0, 0));
      places := [];
    } else {
      var earlier := NodesListed(c, h, g, k - 1);
      var own := NodeListed(c, h, g, k - 1);
      JoinListed(due, NodeDiagnostics(c, h, g, k - 1), earlier, Place(3, 0, 0), Place(3, k - 1, 0),
                 NodeDiagnosticsOf(c, h, g, g.nodes[k - 1]), own, Place(3, k, 0));
      places := earlier + own;
    }
  }

  // ----- connections -----

  ghost function EdgeFails(c: Catalog, h: Host, g: Graph, i: nat): (fails: seq<bool>)
    requires i < |g.edges|
    ensures |fails| == 5
  {
    var e := g.edges[i];
    var from, to := FindNode(g.nodes, e.source), FindNode(g.nodes, e.target);
    [Repeated(EdgeIdsOf(g.edges), i), from.None? || to.None?, OutputTaken(g.edges, i),
     from.Some? && e.port !in OutputsOf(c, h, from.value), to.Some? && to.value.kind == Start]
  }

  function EdgeItems(g: Graph, e: Edge): (items: seq<Diagnostic>)
    ensures |items| == 5
  {
    [Diagnostic(Some(e.source), EdgeId(e.id), DuplicateEdgeId),
     Diagnostic(if FindNode(g.nodes, e.source).Some? then Some(e.source) else None, WholeEdge(e.id), MissingNode),
     Diagnostic(Some(e.source), EdgePort(e.id), DuplicatePortCode),
     Diagnostic(Some(e.source), EdgePort(e.id), InvalidPortCode),
     Diagnostic(Some(e.source), EdgeTarget(e.id), StartReentryCode)]
  }

  lemma RepeatedIff(edges: seq<Edge>, i: nat)
    requires i < |edges|
    ensures Repeated(EdgeIdsOf(edges), i) <==> exists j | 0 <= j < i :: edges[j].id == edges[i].id
  {
    var ids := EdgeIdsOf(edges);
    forall j | 0 <= j < i ensures ids[..i][j] == edges[j].id {}
  }

  lemma IdRepeatedIff(nodes: seq<Node>, i: nat)
    requires i < |nodes|
    ensures Repeated(IdsOf(nodes), i) <==> exists j | 0 <= j < i :: nodes[j].id == nodes[i].id
  {
    var ids := IdsOf(nodes);
    forall j | 0 <= j < i ensures ids[..i][j] == nodes[j].id {}
  }

  lemma FoundIff(nodes: seq<Node>, id: string)
    ensures FindNode(nodes, id).Some? <==> id in NodeIds(nodes)
  {
  }

  lemma EdgeRule(c: Catalog, h: Host, g: Graph, i: nat, rule: nat, d: Diagnostic)
    requires i < |g.edges|
    ensures EdgeTells(c, h, g, i, rule, d) <==>
      rule < 5 && EdgeFails(c, h, g, i)[rule] && d == EdgeItems(g, g.edges[i])[rule]
  {
    RepeatedIff(g.edges, i);
    hide FindNode, OutputsOf, Repeated, EdgeIdsOf;
  }

  lemma LegalIs(c: Catalog, h: Host, g: Graph, e: Edge)
    ensures var from, to := FindNode(g.nodes, e.source), FindNode(g.nodes, e.target);
      LegalDiagnostics(c, h, g, e) ==
        (if from.Some? && e.port !in OutputsOf(c, h, from.value)
         then [Diagnostic(Some(e.source), EdgePort(e.id), InvalidPortCode)] else [])
        + if to.Some? && to.value.kind == Start then [Diagnostic(Some(e.source), EdgeTarget(e.id), StartReentryCode)]
          else []
  {
    var from := FindNode(g.nodes, e.source);
    if from.Some? { OutputsAre(c, h, from.value); }
    hide FindNode, OutputsOf, AutomationPorts;
  }

  lemma FiveTold<T>(fails: seq<bool>, items: seq<T>)
    requires |fails| == |items| == 5
    ensures Told(fails, items, 5) == (if fails[0] then [items[0]] else []) + (if fails[1] then [items[1]] else [])
                                       + (if fails[2] then [items[2]] else []) + ((if fails[3] then [items[3]] else [])
                                       + (if fails[4] then [items[4]] else []))
  {
    assert Told(fails, items, 1) == if fails[0] then [items[0]] else [];
    assert Told(fails, items, 2) == Told(fails, items, 1) + if fails[1] then [items[1]] else [];
    assert Told(fails, items, 3) == Told(fails, items, 2) + if fails[2] then [items[2]] else [];
    assert Told(fails, items, 4) == Told(fails, items, 3) + if fails[3] then [items[3]] else [];
  }

  lemma EdgeIsTold(c: Catalog, h: Host, g: Graph, i: nat)
    requires i < |g.edges|
    ensures EdgeReport(c, h, g, g.edges[i], Repeated(EdgeIdsOf(g.edges), i), OutputTaken(g.edges, i))
         == Told(EdgeFails(c, h, g, i), EdgeItems(g, g.edges[i]), 5)
  {
    var e := g.edges[i];
    FoundIff(g.nodes, e.source);
    FoundIff(g.nodes, e.target);
    LegalIs(c, h, g, e);
    hide FindNode, OutputsOf, Repeated, OutputTaken, NodeIds, EdgeIdsOf, LegalDiagnostics, Told;
    FiveTold(EdgeFails(c, h, g, i), EdgeItems(g, e));
  }

  lemma EdgeListed(c: Catalog, h: Host, g: Graph, i: nat) returns (places: seq<Listings.Place>)
    requires i < |g.edges|
    ensures Listed(ReportedIn(c, h, g),
                   EdgeReport(c, h, g, g.edges[i], Repeated(EdgeIdsOf(g.edges), i), OutputTaken(g.edges, i)),
                   places, Place(2, i, 0), Place(2, i + 1, 0))
  {
    var due := ReportedIn(c, h, g);
    var fails, items := EdgeFails(c, h, g, i), EdgeItems(g, g.edges[i]);
    EdgeIsTold(c, h, g, i);
    hide EdgeFails, EdgeItems, EdgeTells, EdgeReport, Listed, Told, Repeated, OutputTaken, EdgeIdsOf;
    forall rule: nat, d
      ensures due(Later(Place(2, i, 0), rule), d) <==> rule < 5 && fails[rule] && d == items[rule]
    {
      EdgeRule(c, h, g, i, rule, d);
      assert Later(Place(2, i, 0), rule) == Place(2, i, rule);
    }
    assert Runs(due, fails, items, Place(2, i, 0));
    forall q, d | Within(q, Later(Place(2, i, 0), 5), Place(2, i + 1, 0)) ensures !due(q, d) {
      assert q == Later(Place(2, i, 0), q.rule);
    }
    hide ReportedIn;
    places := RunListed(due, fails, items, Place(2, i, 0), Place(2, i + 1, 0));
  }

  lemma {:induction false} EdgesListed(c: Catalog, h: Host, g: Graph, k: nat) returns (places: seq<Listings.Place>)
    requires k <= |g.edges|
    ensures Listed(ReportedIn(c, h, g), EdgeDiagnostics(c, h, g, k), places, Place(2, 0, 0), Place(2, k, 0))
  {
    hide ReportedIn, Listed, EdgeReport, Repeated, OutputTaken, EdgeIdsOf;
    var due := ReportedIn(c, h, g);
    if k == 0 {
      NoneListed(due, Place(2, 0, 0));
      places := [];
    } else {
      var earlier := EdgesListed(c, h, g, k - 1);
      var own := EdgeListed(c, h, g, k - 1);
      JoinListed(due, EdgeDiagnostics(c, h, g, k - 1), earlier, Place(2, 0, 0), Place(2, k - 1, 0),
                 EdgeReport(c, h, g, g.edges[k - 1], Repeated(EdgeIdsOf(g.edges), k - 1), OutputTaken(g.edges, k - 1)),
                 own, Place(2, k, 0));
      places := earlier + own;
    }
  }

  // ----- stages with one rule for each block, or for the graph -----

  ghost function IdsFail(g: Graph): (fails: seq<bool>)
    ensures |fails| == |g.nodes| && forall i | 0 <= i < |fails| :: fails[i] == Repeated(IdsOf(g.nodes), i)
  {
    seq(|g.nodes|, i requires 0 <= i < |g.nodes| => Repeated(IdsOf(g.nodes), i))
  }

  ghost function Lost(g: Graph): (fails: seq<bool>)
    ensures |fails| == |g.nodes| && forall i | 0 <= i < |fails| :: fails[i] == !ReachableFromStart(g, g.nodes[i].id)
  {
    seq(|g.nodes|, i requires 0 <= i < |g.nodes| => !ReachableFromStart(g, g.nodes[i].id))
  }

  function AboutBlocks(g: Graph, code: Code): (items: seq<Diagnostic>)
    ensures |items| == |g.nodes|
    ensures forall i | 0 <= i < |items| :: items[i] == Diagnostic(Some(g.nodes[i].id), NodeId, code)
  {
    seq(|g.nodes|, i requires 0 <= i < |g.nodes| => Diagnostic(Some(g.nodes[i].id), NodeId, code))
  }

  lemma {:induction false} IdsAreTold(g: Graph, k: nat)
    requires k <= |g.nodes|
    ensures IdDiagnostics(g, k) == Told(IdsFail(g), AboutBlocks(g, DuplicateNodeId), k)
  {
    hide Repeated, IdsOf, IdsFail, AboutBlocks;
    if k > 0 { IdsAreTold(g, k - 1); }
  }

  lemma {:induction false} LostAreTold(g: Graph, k: nat)
    requires k <= |g.nodes|
    ensures UnreachableDiagnostics(g, k) == Told(Lost(g), AboutBlocks(g, UnreachableCode), k)
  {
    hide ReachableFromStart, Lost, AboutBlocks;
    if k > 0 { LostAreTold(g, k - 1); }
  }

  lemma IdsListed(c: Catalog, h: Host, g: Graph) returns (places: seq<Listings.Place>)
    ensures Listed(ReportedIn(c, h, g), IdDiagnostics(g, |g.nodes|), places, Place(0, 0, 0), Place(1, 0, 0))
  {
    var due, n := ReportedIn(c, h, g), |g.nodes|;
    IdsAreTold(g, n);
    hide IdsFail, AboutBlocks, Repeated, IdsOf, IdDiagnostics, Told, Listed;
    forall i: nat, rule: nat, d | i < n
      ensures due(Place(0, i, rule), d) <==>
        rule == 0 && IdsFail(g)[i] && d == AboutBlocks(g, DuplicateNodeId)[i]
    {
      IdRepeatedIff(g.nodes, i);
    }
    places := ElementsListed(due, IdsFail(g), AboutBlocks(g, DuplicateNodeId), 0, n);
    WidenListed(due, IdDiagnostics(g, n), places, Place(0, 0, 0), Place(0, n, 0), Place(1, 0, 0));
  }

  lemma LostListed(c: Catalog, h: Host, g: Graph) returns (places: seq<Listings.Place>)
    ensures Listed(ReportedIn(c, h, g), UnreachableDiagnostics(g, |g.nodes|), places, Place(4, 0, 0), Place(5, 0, 0))
  {
    var due, n := ReportedIn(c, h, g), |g.nodes|;
    LostAreTold(g, n);
    hide Lost, AboutBlocks, ReachableFromStart, UnreachableDiagnostics, Told, Listed;
    assert OnePerElement(due, Lost(g), AboutBlocks(g, UnreachableCode), 4);
    places := ElementsListed(due, Lost(g), AboutBlocks(g, UnreachableCode), 4, n);
    WidenListed(due, UnreachableDiagnostics(g, n), places, Place(4, 0, 0), Place(4, n, 0), Place(5, 0, 0));
  }

  lemma StartListed(c: Catalog, h: Host, g: Graph) returns (places: seq<Listings.Place>)
    ensures Listed(ReportedIn(c, h, g), Report(CountKind(g.nodes, Start) != 1, None, Nodes, StartCountCode), places,
                   Place(1, 0, 0), Place(2, 0, 0))
  {
    var due, d := ReportedIn(c, h, g), Diagnostic(None, Nodes, StartCountCode);
    OneStartIsCountOne(g.nodes);
    hide OneStart, CountKind, Listed;
    var failed := !OneStart(g.nodes);
    ToldOfOne(failed, d);
    places := GraphRuleListed(due, failed, d, 1);
  }

  lemma CycleListed(c: Catalog, h: Host, g: Graph) returns (places: seq<Listings.Place>)
    ensures Listed(ReportedIn(c, h, g),
                   Report(exists n <- g.nodes :: CycleFrom(g.edges, AutomationWaitingIds(c, g), n.id), None, Edges,
                          CycleWithoutInput), places, Place(5, 0, 0), Place(6, 0, 0))
  {
    var due, d := ReportedIn(c, h, g), Diagnostic(None, Edges, CycleWithoutInput);
    var failed := exists n <- g.nodes :: CycleFrom(g.edges, AutomationWaitingIds(c, g), n.id);
    hide CycleFrom, AutomationWaitingIds, Listed;
    places := GraphRuleListed(due, failed, d, 5);
  }

  // ----- the report -----

  /** A graph of the right shape without secrets is told exactly what is due, in the order of the places. */
  lemma DiagnosticsAreInOrder(c: Catalog, h: Host, g: Graph) returns (places: seq<Listings.Place>)
    requires Shape(h, g) && !GraphHasSecret(c, g)
    ensures |places| == |Diagnostics(c, h, g)|
    ensures forall k | 0 <= k < |places| :: Reported(c, h, g, places[k], Diagnostics(c, h, g)[k])
    ensures forall i, j | 0 <= i < j < |places| :: Before(places[i], places[j])
    ensures forall p, d | Reported(c, h, g, p, d) :: p in places
  {
    hide Shape, GraphHasSecret, Listed, IdDiagnostics, EdgeDiagnostics, NodeDiagnostics, UnreachableDiagnostics,
         ReportedIn, EdgeTells, NodeTells, CountKind, CycleFrom, AutomationWaitingIds;
    var due := ReportedIn(c, h, g);
    var p0, p1, p2, p3 := Place(0, 0, 0), Place(1, 0, 0), Place(2, 0, 0), Place(3, 0, 0);
    var p4, p5, p6 := Place(4, 0, 0), Place(5, 0, 0), Place(6, 0, 0);
    var a := IdsListed(c, h, g);
    var b := StartListed(c, h, g);
    var ab := IdDiagnostics(g, |g.nodes|) + Report(CountKind(g.nodes, Start) != 1, None, Nodes, StartCountCode);
    JoinListed(due, IdDiagnostics(g, |g.nodes|), a, p0, p1,
               Report(CountKind(g.nodes, Start) != 1, None, Nodes, StartCountCode), b, p2);
    var e := AllEdgesListed(c, h, g);
    JoinListed(due, ab, a + b, p0, p2, EdgeDiagnostics(c, h, g, |g.edges|), e, p3);
    var n := AllNodesListed(c, h, g);
    JoinListed(due, ab + EdgeDiagnostics(c, h, g, |g.edges|), a + b + e, p0, p3,
               NodeDiagnostics(c, h, g, |g.nodes|), n, p4);
    var s := SearchListed(c, h, g);
    var all := ab + EdgeDiagnostics(c, h, g, |g.edges|) + NodeDiagnostics(c, h, g, |g.nodes|);
    JoinListed(due, all, a + b + e + n, p0, p4, SearchDiagnostics(c, g), s, p6);
    places := a + b + e + n + s;
    assert Diagnostics(c, h, g) == all + SearchDiagnostics(c, g);
    AllPlacesCount(c, h, g, all + SearchDiagnostics(c, g), places);
  }

  lemma SearchListed(c: Catalog, h: Host, g: Graph) returns (places: seq<Listings.Place>)
    ensures Listed(ReportedIn(c, h, g), SearchDiagnostics(c, g), places, Place(4, 0, 0), Place(6, 0, 0))
  {
    var lost := LostListed(c, h, g);
    var cycle := CycleListed(c, h, g);
    hide Listed, UnreachableDiagnostics, ReportedIn, CycleFrom, AutomationWaitingIds;
    JoinListed(ReportedIn(c, h, g), UnreachableDiagnostics(g, |g.nodes|), lost, Place(4, 0, 0), Place(5, 0, 0),
               Report(exists n <- g.nodes :: CycleFrom(g.edges, AutomationWaitingIds(c, g), n.id), None, Edges,
                      CycleWithoutInput), cycle, Place(6, 0, 0));
    places := lost + cycle;
  }

  lemma AllEdgesListed(c: Catalog, h: Host, g: Graph) returns (places: seq<Listings.Place>)
    ensures Listed(ReportedIn(c, h, g), EdgeDiagnostics(c, h, g, |g.edges|), places, Place(2, 0, 0), Place(3, 0, 0))
  {
    hide Listed, EdgeDiagnostics, EdgeTells;
    places := EdgesListed(c, h, g, |g.edges|);
    WidenListed(ReportedIn(c, h, g), EdgeDiagnostics(c, h, g, |g.edges|), places, Place(2, 0, 0),
                Place(2, |g.edges|, 0), Place(3, 0, 0));
  }

  lemma AllNodesListed(c: Catalog, h: Host, g: Graph) returns (places: seq<Listings.Place>)
    ensures Listed(ReportedIn(c, h, g), NodeDiagnostics(c, h, g, |g.nodes|), places, Place(3, 0, 0), Place(4, 0, 0))
  {
    hide Listed, NodeDiagnostics, NodeTells;
    places := NodesListed(c, h, g, |g.nodes|);
    WidenListed(ReportedIn(c, h, g), NodeDiagnostics(c, h, g, |g.nodes|), places, Place(3, 0, 0),
                Place(3, |g.nodes|, 0), Place(4, 0, 0));
  }

  lemma AllPlacesCount(c: Catalog, h: Host, g: Graph, all: seq<Diagnostic>, places: seq<Listings.Place>)
    requires Listed(ReportedIn(c, h, g), all, places, Place(0, 0, 0), Place(6, 0, 0))
    ensures |places| == |all|
    ensures forall k | 0 <= k < |places| :: Reported(c, h, g, places[k], all[k])
    ensures forall i, j | 0 <= i < j < |places| :: Before(places[i], places[j])
    ensures forall p, d | Reported(c, h, g, p, d) :: p in places
  {
    hide EdgeTells, NodeTells, OneStart, ReachableFromStart, CycleFrom, AutomationWaitingIds;
    forall p, d | Reported(c, h, g, p, d) ensures p in places {
      assert Within(p, Place(0, 0, 0), Place(6, 0, 0));
      assert ReportedIn(c, h, g)(p, d);
    }
  }
}
