/**
 What an empty comparison does not tell: numbers that JSON cannot express are compared as `null`, so two flows may
 differ, and only one of them be valid, without a change being listed.
 */
module DiffTraps {
  import opened Wrappers
  import opened Json
  import opened FlowGraph
  import opened FlowValidator
  import opened FlowExecutor
  import opened FlowSafety
  import opened FlowReplay
  import opened Canonical
  import opened GraphDiff
  import opened SampleFlow
  import opened ReplyMemory

  const INFINITY: Json := Number("Infinity")

  /** A question with a time limit. */
  function Timed(limit: Json): Node {
    Node("b", Input, "", HERE, map["variable" := Str("v"), "text" := Str("?"), "timeout" := limit])
  }

  lemma SampleBlocks(m: Node)
    requires Captures(m)
    ensures NodeMap(Sample(m).nodes) == map["a" := FIRST, "b" := m, "c" := QUESTION, "d" := LAST]
  {
    var nodes := Sample(m).nodes;
    assert nodes[..3] == [FIRST, m, QUESTION] && [FIRST, m, QUESTION][..2] == [FIRST, m] && [FIRST, m][..1] == [FIRST]
      && [FIRST][..0] == [];
    assert NodeMap([FIRST]) == map["a" := FIRST];
    assert NodeMap([FIRST, m]) == map["a" := FIRST, "b" := m];
    assert NodeMap([FIRST, m, QUESTION]) == map["a" := FIRST, "b" := m, "c" := QUESTION];
  }

  /** Blocks written alike in the same place of a sample flow: no change is listed. */
  lemma SampleChanges(o: Orders, l: Node, r: Node)
    requires Sorts(o.ids) && Sorts(o.keys) && Captures(l) && Captures(r)
    requires Written(NodeJson(l)) == Written(NodeJson(r)) && FlowPorts(l) == FlowPorts(r)
    ensures Changes(o, Sample(l), Sample(r)) == []
  {
    SampleWriting(l, r);
    assert Sample(l).edges == Sample(r).edges by { hide FlowPorts; }
    hide *;
    NoChangesMeansSameWriting(o, Sample(l), Sample(r));
  }

  lemma SampleWriting(l: Node, r: Node)
    requires Captures(l) && Captures(r) && Written(NodeJson(l)) == Written(NodeJson(r))
    ensures WrittenBlocks(Sample(l)) == WrittenBlocks(Sample(r))
  {
    SampleBlocks(l);
    SampleBlocks(r);
    hide *;
    FourBlocks(Sample(l), Sample(r), FIRST, QUESTION, LAST, l, r);
  }

  lemma FourBlocks(g: Graph, g': Graph, a: Node, c: Node, d: Node, l: Node, r: Node)
    requires NodeMap(g.nodes) == map["a" := a, "b" := l, "c" := c, "d" := d]
    requires NodeMap(g'.nodes) == map["a" := a, "b" := r, "c" := c, "d" := d]
    requires Written(NodeJson(l)) == Written(NodeJson(r))
    ensures WrittenBlocks(g) == WrittenBlocks(g')
  {
    hide NodeJson, Written, NodeMap;
  }

  lemma TimedIsWritten()
    ensures Written(NodeJson(Timed(INFINITY))) == Written(NodeJson(Timed(Null)))
  {
    assert "Infinity"[0] == 'I';
    assert !IsDigitText("Infinity");
    var l, r := Timed(INFINITY), Timed(Null);
    assert Written(Obj(l.data)).fields == Written(Obj(r.data)).fields;
    WrittenAlikeIff(l, r);
  }

  lemma TimedIsConfiguredIff(h: Host, limit: Json)
    ensures Configured(h, Timed(limit)) <==> !PositiveTimeout(h, Timed(limit).data)
    ensures NodeShape(Timed(limit))
  {
    assert SafeKey("v");
    assert forall key <- Timed(limit).data :: |key| <= 100;
  }

  /**
   A time limit of `null` is none, an infinite one is positive; the comparison cannot tell them apart, the validator
   does.
   */
  lemma EmptyDiffHidesAnInfinity(o: Orders, h: Host, request: Request)
    requires Sorts(o.ids) && Sorts(o.keys)
    requires h.number(INFINITY) == Infinite(false) && h.withinBounds(Sample(Timed(Null)))
    ensures var before, after := Sample(Timed(Null)), Sample(Timed(INFINITY));
      && before != after && Changes(o, before, after) == []
      && WellFormed(h, before) && !WellFormed(h, after)
      && Execute(h, after, request).Thrown? && Execute(h, after, request).failure.InvalidFlow?
      && !(Execute(h, before, request).Thrown? && Execute(h, before, request).failure.InvalidFlow?)
  {
    hide *;
    var before, after := Sample(Timed(Null)), Sample(Timed(INFINITY));
    TimedIsWritten();
    TimedFlows(h);
    TimedCaptures(Null);
    TimedCaptures(INFINITY);
    SampleChanges(o, Timed(Null), Timed(INFINITY));
    OnlyInvalidFlowsAreRefused(h, before, request);
    OnlyInvalidFlowsAreRefused(h, after, request);
  }

  lemma TimedCaptures(limit: Json)
    ensures Captures(Timed(limit)) && FlowPorts(Timed(limit)) == ["next"]
  {
  }

  lemma TimedFlows(h: Host)
    requires h.number(INFINITY) == Infinite(false) && h.withinBounds(Sample(Timed(Null)))
    ensures Sample(Timed(Null)) != Sample(Timed(INFINITY))
    ensures WellFormed(h, Sample(Timed(Null))) && !WellFormed(h, Sample(Timed(INFINITY)))
  {
    TimedDiffer(h);
    assert Sample(Timed(Null)).nodes[1] == Timed(Null);
    assert Sample(Timed(INFINITY)).nodes[1] == Timed(INFINITY);
    TimedIsConfiguredIff(h, Null);
    TimedIsConfiguredIff(h, INFINITY);
    assert Captures(Timed(Null)) && Captures(Timed(INFINITY));
    hide *;
    SampleIsWellFormedIff(h, Timed(Null));
    SampleIsWellFormedIff(h, Timed(INFINITY));
  }

  lemma TimedDiffer(h: Host)
    requires h.number(INFINITY) == Infinite(false)
    ensures Timed(Null) != Timed(INFINITY)
    ensures !PositiveTimeout(h, Timed(Null).data) && PositiveTimeout(h, Timed(INFINITY).data)
  {
    assert Timed(Null).data["timeout"] == Null && Timed(INFINITY).data["timeout"] == INFINITY;
  }

  lemma OnlyInvalidFlowsAreRefused(h: Host, g: Graph, request: Request)
    ensures Execute(h, g, request).Thrown? && Execute(h, g, request).failure.InvalidFlow? <==> !WellFormed(h, g)
  {
    NoErrorsIsWellFormed(h, g);
    if WellFormed(h, g) { ValidatedFlowNeverCrashes(h, g, request); }
    hide WellFormed, FlowErrors, ExecuteValid, Reported, InitialVariables;
  }

  // ----- both valid, and yet different -----

  /** A block that takes a reply and may ask for it. */
  function Asking(text: Json): Node {
    Node("b", Input, "", HERE, map["variable" := Str("v"), "text" := text])
  }

  lemma AskingIsWritten()
    ensures Written(NodeJson(Asking(INFINITY))) == Written(NodeJson(Asking(Null)))
  {
    assert "Infinity"[0] == 'I';
    assert !IsDigitText("Infinity");
    var l, r := Asking(INFINITY), Asking(Null);
    assert Written(Obj(l.data)).fields == Written(Obj(r.data)).fields;
    WrittenAlikeIff(l, r);
  }

  lemma AskingIsConfigured(h: Host, text: Json)
    requires text == Null || text == INFINITY
    ensures Captures(Asking(text)) && Configured(h, Asking(text)) && NodeShape(Asking(text))
    ensures FlowPorts(Asking(text)) == ["next"]
  {
    assert SafeKey("v");
    assert forall key <- Asking(text).data :: |key| <= 100;
  }

  lemma AskingSays(variables: Variables)
    ensures Said(Asking(Null), variables) == [] && Said(Asking(INFINITY), variables) == ["Infinity"]
  {
    assert Field(Asking(Null).data, "text") == Some(Null) && Field(Asking(INFINITY).data, "text") == Some(INFINITY);
    PlainTextIsKept("Infinity", variables);
    hide Asking;
  }

  /** Two valid flows without a listed change: the first is silent, the second asks for `Infinity`. */
  lemma EmptyDiffHidesAQuestion(o: Orders, h: Host, text: string)
    requires Sorts(o.ids) && Sorts(o.keys) && h.withinBounds(Sample(Asking(Null)))
    requires h.withinBounds(Sample(Asking(INFINITY)))
    ensures var before, after := Sample(Asking(Null)), Sample(Asking(INFINITY));
      && WellFormed(h, before) && WellFormed(h, after) && Changes(o, before, after) == []
      && var request := Request(text, None, None);
         var l, r := Execute(h, before, request), Execute(h, after, request);
         l.Returned? && r.Returned? && l.result.texts == [] && r.result.texts == ["Infinity"]
  {
    hide *;
    AskingIsWritten();
    AskingIsConfigured(h, Null);
    AskingIsConfigured(h, INFINITY);
    SampleChanges(o, Asking(Null), Asking(INFINITY));
    SampleIsWellFormedIff(h, Asking(Null));
    SampleIsWellFormedIff(h, Asking(INFINITY));
    SampleOpens(h, Asking(Null), text);
    SampleOpens(h, Asking(INFINITY), text);
    AskingSays(InitialVariables(Request(text, None, None)));
  }
}
