/**
 The two validators against each other: they agree on every historical graph, and on a flow the first one accepts
 the second one objects exactly to what versioned settings ask for beyond the historical rules.
 */
module ValidatorAgreement {
  import opened Wrappers
  import opened Json
  import opened FlowGraph
  import opened GraphSearch
  import opened FlowValidator
  import opened AutomationValidator

  /** Only the eight historical kinds, and no versioned settings. */
  ghost predicate Historical(g: Graph) {
    forall n <- g.nodes :: !n.kind.Other? && !Marked(n)
  }

  // ----- settings -----

  lemma OperatorsAgree(x: Option<Json>)
    ensures OperatorOk(x) <==> ValueText(x) in OPERATORS
  {
    if x.Some? && x.value.Number? {
      var text: string := x.value.text;
      assert "NaN"[0] == 'N' && "Infinity"[0] == 'I' && "-Infinity"[0] == '-';
      assert text[0] !in {'e', 'n', 'c', 's', 'p'};
      assert "equals"[0] == 'e' && "not_equals"[0] == 'n' && "contains"[0] == 'c' && "starts_with"[0] == 's'
        && "present"[0] == 'p';
    }
    if x.Some? && x.value.Bool? {
      assert "true"[0] == 't' && "false"[0] == 'f' && "equals"[0] == 'e' && "not_equals"[0] == 'n'
        && "contains"[0] == 'c' && "starts_with"[0] == 's' && "present"[0] == 'p';
    }
  }

  lemma OptionsAgree(n: Node)
    requires n.kind == Menu
    ensures OptionsValueOk(Field(n.data, "options")) <==> MenuOptionsOk(n)
  {
  }

  /** Without versioned settings both configuration rules coincide, and no output is added. */
  lemma UnmarkedSettingsAgree(c: Catalog, h: Host, n: Node)
    requires !n.kind.Other? && !Marked(n)
    ensures ConfigIssues(c, h, n) == [] <==> Configured(h, n)
    ensures ExtraPorts(h, n) == [] && AutomationPorts(c, h, n) == FlowPorts(n)
    ensures EffectOk(n) && Known(c, n.kind)
    ensures Waits(c, n) <==> n.kind == Input
  {
    match n.kind
    case Condition => OperatorsAgree(Field(n.data, "operator"));
    case Menu => OptionsAgree(n); assert OptionPorts(MenuOptions(n)) + [] == FlowPorts(n);
    case _ =>
  }

  /** For a block the first validator accepts, the second one asks for the marked settings only. */
  lemma ConfiguredIssues(c: Catalog, h: Host, n: Node)
    requires Configured(h, n)
    ensures ConfigIssues(c, h, n) == [] <==> MarkedIssues(c, n) == []
    ensures AutomationPorts(c, h, n) == FlowPorts(n) + ExtraPorts(h, n)
    ensures EffectOk(n) && Known(c, n.kind)
    ensures n.kind == Input ==> Waits(c, n)
  {
    match n.kind
    case Condition => OperatorsAgree(Field(n.data, "operator"));
    case Menu => OptionsAgree(n);
    case _ =>
  }

  // ----- waiting blocks -----

  lemma FewerLinksFewerCycles(edges: seq<Edge>, cut: set<string>, larger: set<string>)
    requires cut <= larger && !(exists x :: Leads(edges, cut, x, x))
    ensures !(exists x :: Leads(edges, larger, x, x))
  {
    if x :| Leads(edges, larger, x, x) {
      var p :| |p| >= 2 && PathBetween(edges, larger, p, x, x);
      forall i | 0 <= i < |p| - 1 ensures Link(edges, cut, p[i], p[i + 1]) {
        assert Link(edges, larger, p[i], p[i + 1]);
      }
      assert PathBetween(edges, cut, p, x, x);
      assert Leads(edges, cut, x, x);
    }
  }

  lemma HistoricalWaits(c: Catalog, h: Host, g: Graph)
    requires Historical(g)
    ensures AutomationWaitingIds(c, g) == WaitingIds(g)
  {
    forall n <- g.nodes ensures FindNode(g.nodes, n.id).Some? {}
    forall n <- g.nodes ensures Waits(c, n) <==> n.kind == Input {}
  }

  lemma AutomationWaitsMore(c: Catalog, g: Graph)
    ensures WaitingIds(g) <= AutomationWaitingIds(c, g)
  {
  }

  // ----- the theorems -----

  lemma HistoricalEdgeAgrees(c: Catalog, h: Host, g: Graph, e: Edge)
    requires Historical(g)
    ensures AutomationEdgeLegal(c, h, g, e) <==> EdgeLegal(g, e)
  {
    hide AutomationPorts, FlowPorts, Marked;
    var from := FindNode(g.nodes, e.source);
    if from.Some? { UnmarkedSettingsAgree(c, h, from.value); }
  }

  lemma HistoricalNodeAgrees(c: Catalog, h: Host, g: Graph, n: Node)
    requires !n.kind.Other? && !Marked(n)
    ensures AutomationNodeLegal(c, h, g, n) <==> NodeLegal(h, g, n)
  {
    hide AutomationPorts, FlowPorts, ConfigIssues, Configured, Connected;
    UnmarkedSettingsAgree(c, h, n);
  }

  /**
   Historical graphs without secret-like keys: the automation validator has nothing to report if and only if the
   flow validator has no errors.
   */
  lemma ValidatorsAgreeOnHistoricalGraphs(c: Catalog, h: Host, g: Graph)
    requires Historical(g) && !GraphHasSecret(c, g)
    ensures Diagnostics(c, h, g) == [] <==> FlowErrors(h, g) == []
  {
    NoDiagnosticsIsSound(c, h, g);
    NoErrorsIsWellFormed(h, g);
    hide Diagnostics, FlowErrors, Shape, AutomationEdgeLegal, EdgeLegal, AutomationNodeLegal, NodeLegal, Distinct,
         OneStart, EndpointsExist, OutputsFunctional, ReachableFromStart, Leads, AutomationWaitingIds, WaitingIds,
         Marked;
    HistoricalWaits(c, h, g);
    forall e <- g.edges
      ensures AutomationEdgeLegal(c, h, g, e) <==> EdgeLegal(g, e)
    {
      HistoricalEdgeAgrees(c, h, g, e);
    }
    forall n <- g.nodes
      ensures AutomationNodeLegal(c, h, g, n) <==> NodeLegal(h, g, n)
    {
      HistoricalNodeAgrees(c, h, g, n);
    }
  }

  /** The versioned settings of a block pass their schema and add no output. */
  ghost predicate SettingsAddNothing(c: Catalog, h: Host, n: Node) {
    MarkedIssues(c, n) == [] && ExtraPorts(h, n) == []
  }

  lemma ExtraPortsAreForeign(h: Host, n: Node)
    ensures forall port <- ExtraPorts(h, n) :: port !in FlowPorts(n)
  {
    assert "exhausted"[0] == 'e' && "timeout"[0] == 't' && "next"[0] == 'n';
    if n.kind == Menu {
      forall port <- FlowPorts(n) ensures port[0] == 'o' {
        var i :| 0 <= i < |MenuOptions(n)| && port == OptionPort(MenuOptions(n)[i]);
        assert "option-"[0] == 'o';
      }
    }
  }

  lemma AcceptedNodeAgrees(c: Catalog, h: Host, g: Graph, n: Node)
    requires n in g.nodes && FindNode(g.nodes, n.id) == Some(n)
    requires NodeLegal(h, g, n) && forall e <- g.edges :: EdgeLegal(g, e)
    ensures AutomationNodeLegal(c, h, g, n) <==> SettingsAddNothing(c, h, n)
  {
    hide AutomationPorts, FlowPorts, ConfigIssues, MarkedIssues, ExtraPorts, Configured;
    ConfiguredIssues(c, h, n);
    ExtraPortsAreForeign(h, n);
    forall port | port in ExtraPorts(h, n) ensures !Connected(g.edges, n.id, port) {
      forall e <- g.edges | e.source == n.id ensures e.port != port { assert EdgeLegal(g, e); }
    }
    assert forall port | port in ExtraPorts(h, n) :: port in AutomationPorts(c, h, n);
    assert ExtraPorts(h, n) != [] ==> ExtraPorts(h, n)[0] in ExtraPorts(h, n);
  }

  lemma AcceptedEdgeAgrees(c: Catalog, h: Host, g: Graph, e: Edge)
    requires EdgeLegal(g, e) && forall n <- g.nodes :: Configured(h, n)
    ensures AutomationEdgeLegal(c, h, g, e)
  {
    hide AutomationPorts, FlowPorts, Configured, ExtraPorts, MarkedIssues, ConfigIssues;
    var from := FindNode(g.nodes, e.source);
    if from.Some? { ConfiguredIssues(c, h, from.value); }
  }

  /**
   On any flow the first validator accepts, versioned settings included: the second one has nothing to report if and
   only if no key is secret-like and every versioned setting passes its schema without adding an output.
   */
  lemma AcceptedFlowsAgree(c: Catalog, h: Host, g: Graph)
    requires FlowErrors(h, g) == []
    ensures Diagnostics(c, h, g) == [] <==> !GraphHasSecret(c, g) && forall n <- g.nodes :: SettingsAddNothing(c, h, n)
  {
    NoDiagnosticsIsSound(c, h, g);
    NoErrorsIsWellFormed(h, g);
    hide Diagnostics, FlowErrors, Shape, GraphHasSecret, AutomationEdgeLegal, EdgeLegal, AutomationNodeLegal, Distinct,
         OneStart, EndpointsExist, OutputsFunctional, ReachableFromStart, Leads, AutomationWaitingIds, WaitingIds,
         SettingsAddNothing, Configured, FlowPorts, Connected;
    AutomationWaitsMore(c, g);
    FewerLinksFewerCycles(g.edges, WaitingIds(g), AutomationWaitingIds(c, g));
    forall n <- g.nodes ensures AutomationNodeLegal(c, h, g, n) <==> SettingsAddNothing(c, h, n) {
      FindIsUnique(g.nodes, n);
      AcceptedNodeAgrees(c, h, g, n);
    }
    forall e <- g.edges ensures AutomationEdgeLegal(c, h, g, e) { AcceptedEdgeAgrees(c, h, g, e); }
  }
}
