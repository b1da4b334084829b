/**
 What becomes of a reply: it is stored under the name its block gives, and it reaches the next message exactly when
 that name is safe and is not the name of the message itself. Validation asks neither of a menu, nor the second of
 an input.
 */
module ReplyMemory {
  import opened Wrappers
  import opened Json
  import opened FlowGraph
  import opened FlowValidator
  import opened FlowExecutor
  import opened FlowReplay
  import opened SampleFlow

  /** The name a capturing block stores the reply under. */
  function ReplyKey(n: Node): string {
    var name := ValueText(Field(n.data, "variable"));
    if n.kind == Menu && name == "" then "menu.choice" else name
  }

  /** What is stored: all of it up to the size of a variable, or the number chosen. */
  function ReplyValue(n: Node, text: string): string {
    if n.kind == Input then Take(text, 4096) else Trim(text)
  }

  /** No block visited after the reply sets that variable again. */
  ghost predicate LeavesAlone(g: Graph, trace: seq<Visit>, key: string) {
    forall v <- trace | v.kind == Variable ::
      FindNode(g.nodes, v.nodeId).Some? ==> ValueText(Field(FindNode(g.nodes, v.nodeId).value.data, "variable")) != key
  }

  /** The next message sees `value` under `key`, whatever that message is. */
  ghost predicate Remembers(state: FlowState, key: string, value: string) {
    forall next: Request | next.state == Some(state) ::
      key in InitialVariables(next) && InitialVariables(next)[key] == value
  }

  lemma RememberedAs(n: Node, text: string, variables: Variables)
    requires n.kind == Input || n.kind == Menu
    ensures Remembered(n, text, variables) == variables[ReplyKey(n) := ReplyValue(n, text)]
  {
  }

  lemma ScenesLeaveAlone(g: Graph, scenes: seq<Scene>, key: string, i: nat)
    requires Distinct(IdsOf(g.nodes)) && i < |scenes| && scenes[i].block in g.nodes
    requires LeavesAlone(g, Visits(scenes), key)
    ensures scenes[i].block.kind == Variable ==> ValueText(Field(scenes[i].block.data, "variable")) != key
  {
    var n := scenes[i].block;
    FindIsUnique(g.nodes, n);
    assert Visits(scenes)[i] == Visit(n.id, n.caption, n.kind);
    assert Visits(scenes)[i] in Visits(scenes);
    hide Distinct, FindNode, Visits;
  }

  /** A variable that no scene sets keeps its value to the end of the story. */
  lemma {:induction false} StoryKeeps(h: Host, g: Graph, start: string, variables: Variables, scenes: seq<Scene>,
                                      key: string, i: nat)
    requires Distinct(IdsOf(g.nodes)) && Story(h, g, start, variables, scenes) && key in variables && i < |scenes|
    requires LeavesAlone(g, Visits(scenes), key)
    ensures key in scenes[i].variables && scenes[i].variables[key] == variables[key]
  {
    ScenesLeaveAlone(g, scenes, key, i);
    hide Distinct, LeavesAlone, PortTaken, RenderFlowText;
    if i > 0 {
      StoryKeeps(h, g, start, variables, scenes, key, i - 1);
      assert HandsOver(h, g, scenes[i - 1], scenes[i]);
    }
  }

  /** Whatever follows a reply, it is in the state that is returned. */
  lemma ReplyIsReturned(h: Host, g: Graph, request: Request, n: Node, r: FlowResult)
    requires WellFormed(h, g) && n in g.nodes && (n.kind == Input || n.kind == Menu) && Understood(n, request.text)
    requires request.state.Some? && request.state.value.status == Waiting && request.state.value.nodeId == Some(n.id)
    requires Execute(h, g, request) == Returned(r) && LeavesAlone(g, r.trace, ReplyKey(n))
    ensures ReplyKey(n) in r.state.variables && r.state.variables[ReplyKey(n)] == ReplyValue(n, request.text)
  {
    hide *;
    WellFormedIsDistinct(h, g);
    StartsEmpty(request);
    ReplyIsItsStory(h, g, request, n, r);
    var e := FindEdge(g.edges, n.id, ReplyPort(n, request.text)).value;
    var p := Opening(request).(variables := Remembered(n, request.text, Opening(request).variables));
    var scenes :| Explains(h, g, e.target, p, r, scenes);
    RememberedAs(n, request.text, Opening(request).variables);
    ExplainedStory(h, g, e.target, p, r, scenes);
    StoryKeeps(h, g, e.target, p.variables, scenes, ReplyKey(n), |scenes| - 1);
  }

  lemma WellFormedIsDistinct(h: Host, g: Graph)
    requires WellFormed(h, g)
    ensures Distinct(IdsOf(g.nodes)) && OutputsFunctional(g.edges)
  {
    hide Distinct, OutputsFunctional, Shape, EdgeLegal, NodeLegal, ReachableFromStart;
  }

  lemma StartsEmpty(request: Request)
    ensures Opening(request).trace == [] && Opening(request).texts == []
    ensures Opening(request).variables == InitialVariables(request)
    ensures Opening(request).steps == (if request.state.Some? then request.state.value.steps else 0)
  {
    hide InitialVariables;
  }

  lemma ExplainedStory(h: Host, g: Graph, start: string, p: Progress, r: FlowResult, scenes: seq<Scene>)
    requires Explains(h, g, start, p, r, scenes) && p.trace == []
    ensures Story(h, g, start, p.variables, scenes) && scenes != []
    ensures r.trace == Visits(scenes) && r.state.variables == scenes[|scenes| - 1].variables
  {
    assert [] + Visits(scenes) == Visits(scenes);
    hide WithinLimits, HandsOver;
  }

  lemma MemoryIff(state: FlowState, key: string, value: string)
    requires key in state.variables && state.variables[key] == value && |value| <= 4096
    ensures Remembers(state, key, value) <==> SafeKey(key) && key != "message"
  {
    hide SafeKey;
    TakeAll(value);
    var other := if value == "" then "x" else "";
    var next := Request(other, None, Some(state));
    if key == "message" {
      TakeAll(other);
      assert InitialVariables(next)[key] == other;
    } else if !SafeKey(key) {
      assert key !in InitialVariables(next);
    }
  }

  lemma TakeAll(s: string)
    requires |s| <= 4096
    ensures Take(s, 4096) == s
  {
  }

  /**
   Exactly when a reply is remembered. For every well-formed flow, every block that waits for a reply, every reply it
   understands and every result that is returned without setting the variable again: the next message sees the reply
   if and only if the name is safe and is not `message`.
   */
  lemma ReplySurvivesIff(h: Host, g: Graph, request: Request, n: Node, r: FlowResult)
    requires WellFormed(h, g) && n in g.nodes && (n.kind == Input || n.kind == Menu) && Understood(n, request.text)
    requires request.state.Some? && request.state.value.status == Waiting && request.state.value.nodeId == Some(n.id)
    requires Execute(h, g, request) == Returned(r) && LeavesAlone(g, r.trace, ReplyKey(n))
    ensures Remembers(r.state, ReplyKey(n), ReplyValue(n, request.text)) <==>
      SafeKey(ReplyKey(n)) && ReplyKey(n) != "message"
  {
    ReplyIsReturned(h, g, request, n, r);
    ReplyIsShort(n, request.text);
    hide *;
    MemoryIff(r.state, ReplyKey(n), ReplyValue(n, request.text));
  }

  lemma ReplyIsShort(n: Node, text: string)
    requires (n.kind == Input || n.kind == Menu) && Understood(n, text)
    ensures |ReplyValue(n, text)| <= 4096
  {
    if n.kind == Menu {
      var o :| o in MenuOptions(n) && o.value == Trim(text);
      assert IsOptionNumber(o.value);
    }
  }

  // ----- flows that forget -----

  function Choice(number: string): Json {
    Obj(map["value" := Str(number), "label" := Str("x")])
  }

  /** A menu of two options that stores the choice under `name`. */
  function Chooser(name: string): Node {
    Node("b", Menu, "", HERE,
      map["text" := Str("?"), "variable" := Str(name), "options" := Arr([Choice("1"), Choice("2")])])
  }

  lemma ChooserFields(name: string)
    ensures var data := Chooser(name).data;
      && Field(data, "text") == Some(Str("?")) && Field(data, "variable") == Some(Str(name))
      && Field(data, "options") == Some(Arr([Choice("1"), Choice("2")])) && Chooser(name).kind == Menu
      && Chooser(name).id == "b"
  {
    hide Choice;
  }

  lemma ChoicesAreRead()
    ensures ReadOptions([Choice("1"), Choice("2")]) == [MenuOption("1", "x"), MenuOption("2", "x")]
  {
    ChoiceIsRead("1");
    ChoiceIsRead("2");
    hide ReadOption, Choice;
    assert [Choice("1"), Choice("2")][1..] == [Choice("2")] && [Choice("2")][1..] == [];
    assert ReadOptions([Choice("2")]) == [MenuOption("2", "x")];
  }

  lemma ChooserOptions(name: string)
    ensures MenuOptions(Chooser(name)) == [MenuOption("1", "x"), MenuOption("2", "x")]
    ensures |RawOptions(Chooser(name))| == 2
  {
    ChooserFields(name);
    ChoicesAreRead();
    hide Chooser, Choice, ReadOptions;
  }

  lemma ShortTexts()
    ensures Trim("1") == "1" && Trim("?") == "?"
  {
  }

  lemma ChooserIsConfigured(h: Host, name: string)
    ensures Configured(h, Chooser(name)) && NodeShape(Chooser(name)) && Understood(Chooser(name), "1")
  {
    hide MenuOptions, RawOptions, NodeShape, Chooser, Trim, Choice;
    var n := Chooser(name);
    ChooserFields(name);
    ChooserOptions(name);
    ChooserFits(name);
    ShortTexts();
    assert MenuOptions(n)[0] in MenuOptions(n);
    assert DistinctOptions(MenuOptions(n)) by { assert "1"[0] != "2"[0]; }
  }

  lemma ChooserFits(name: string)
    ensures NodeShape(Chooser(name)) && Chooser(name).kind == Menu
  {
    assert forall key <- Chooser(name).data :: |key| <= 100;
    hide Choice;
  }

  lemma ChoiceIsRead(number: string)
    requires number == "1" || number == "2"
    ensures ReadOption(Choice(number)) == [MenuOption(number, "x")]
  {
    var o := Choice(number);
    assert o.fields["value"] == Str(number) && o.fields["label"] == Str("x");
    assert Trim("x") == "x" && Trim(number) == number;
  }

  lemma SampleStory(h: Host, m: Node, variables: Variables)
    requires Captures(m)
    ensures Story(h, Sample(m), "a", variables, [Scene(FIRST, variables), Scene(m, variables)])
    ensures Story(h, Sample(m), "c", variables, [Scene(QUESTION, variables)])
  {
    hide *;
    SampleHolds(m);
    FirstHandsOver(h, m, variables);
    TwoScenes(h, Sample(m), Scene(FIRST, variables), Scene(m, variables), variables);
    OneScene(h, Sample(m), Scene(QUESTION, variables), variables);
  }

  lemma SampleHolds(m: Node)
    requires Captures(m)
    ensures FIRST in Sample(m).nodes && m in Sample(m).nodes && QUESTION in Sample(m).nodes
    ensures FIRST.id == "a" && FIRST.kind == Start && QUESTION.id == "c" && QUESTION.kind == Input
    ensures (m.kind == Input || m.kind == Menu)
  {
    assert Sample(m).nodes[0] == FIRST && Sample(m).nodes[1] == m && Sample(m).nodes[2] == QUESTION;
    hide Edges;
  }

  lemma TwoScenes(h: Host, g: Graph, first: Scene, last: Scene, variables: Variables)
    requires first.block in g.nodes && last.block in g.nodes && HandsOver(h, g, first, last)
    requires first.block.kind == Start && first.variables == variables
    requires (last.block.kind == Input || last.block.kind == Menu)
    ensures Story(h, g, first.block.id, variables, [first, last])
  {
    hide HandsOver;
  }

  lemma OneScene(h: Host, g: Graph, scene: Scene, variables: Variables)
    requires scene.block in g.nodes && scene.block.kind == Input && scene.variables == variables
    ensures Story(h, g, scene.block.id, variables, [scene])
  {
    hide HandsOver;
  }

  lemma FirstHandsOver(h: Host, m: Node, variables: Variables)
    requires Captures(m)
    ensures HandsOver(h, Sample(m), Scene(FIRST, variables), Scene(m, variables))
  {
    var g := Sample(m);
    hide FlowPorts;
    assert g.edges[0] == Edge("in", "a", "b", "next") && g.edges[0] in g.edges;
    hide Sample, Edges;
  }

  lemma CapturingBlock(m: Node)
    requires Captures(m)
    ensures m in Sample(m).nodes && m.id == "b" && (m.kind == Input || m.kind == Menu) && QUESTION.kind == Input
  {
    assert Sample(m).nodes[1] == m;
    hide Edges;
  }

  lemma ToldWaiting(p: Progress, scenes: seq<Scene>)
    requires scenes != [] && p.trace == []
    requires scenes[|scenes| - 1].block.kind == Input || scenes[|scenes| - 1].block.kind == Menu
    ensures var r := Told(p, scenes);
      && r.state.status == Waiting && r.state.nodeId == Some(scenes[|scenes| - 1].block.id)
      && r.state.steps == p.steps + |scenes|
      && r.trace == Visits(scenes)
  {
    assert [] + Visits(scenes) == Visits(scenes);
    hide Visits, Speech;
  }

  lemma FirstIsSilent(p: Progress, m: Node)
    requires p.texts == []
    ensures Told(p, [Scene(FIRST, p.variables), Scene(m, p.variables)]).texts == Said(m, p.variables)
  {
    var scenes := [Scene(FIRST, p.variables), Scene(m, p.variables)];
    assert scenes[1..] == [Scene(m, p.variables)];
    assert Speech(scenes[1..]) == Said(m, p.variables) + Speech([]);
    hide Visits;
  }

  lemma Explained(h: Host, g: Graph, start: string, p: Progress, scenes: seq<Scene>)
    requires Story(h, g, start, p.variables, scenes) && scenes != [] && |scenes| <= 2 && p.steps <= 100
    ensures Explains(h, g, start, p, Told(p, scenes), scenes)
  {
    hide Story, Told;
  }

  lemma SampleOpens(h: Host, m: Node, text: string)
    requires Captures(m) && WellFormed(h, Sample(m)) && Configured(h, m)
    ensures var first := Execute(h, Sample(m), Request(text, None, None));
      && first.Returned? && first.result.state.status == Waiting && first.result.state.nodeId == Some("b")
      && first.result.state.steps == 2 && first.result.texts == Said(m, InitialVariables(Request(text, None, None)))
  {
    hide *;
    var g, request := Sample(m), Request(text, None, None);
    var p := Opening(request);
    var scenes := [Scene(FIRST, p.variables), Scene(m, p.variables)];
    SampleStory(h, m, p.variables);
    SampleFinds(h, m);
    StartsEmpty(request);
    CapturingBlock(m);
    ToldWaiting(p, scenes);
    FirstIsSilent(p, m);
    Explained(h, g, "a", p, scenes);
    FirstMessageIsItsStory(h, g, request, Told(p, scenes));
  }

  lemma SampleGoesOn(h: Host, m: Node, reply: string, state: FlowState)
    requires Captures(m) && WellFormed(h, Sample(m)) && Understood(m, reply)
    requires state.status == Waiting && state.nodeId == Some("b") && state.steps <= 100
    ensures var second := Execute(h, Sample(m), Request(reply, None, Some(state)));
      && second.Returned? && second.result.state.status == Waiting
      && second.result.trace == [Visit("c", "", Input)]
  {
    hide *;
    var g, request := Sample(m), Request(reply, None, Some(state));
    var p := Opening(request);
    var q := p.(variables := Remembered(m, reply, p.variables));
    var scenes := [Scene(QUESTION, q.variables)];
    SampleStory(h, m, q.variables);
    StartsEmpty(request);
    QuestionVisit(q.variables);
    CapturingBlock(m);
    SampleReplyEdge(h, m, reply);
    ToldWaiting(q, scenes);
    Explained(h, g, "c", q, scenes);
    ReplyIsItsStory(h, g, request, m, Told(q, scenes));
  }

  lemma QuestionVisit(variables: Variables)
    ensures Visits([Scene(QUESTION, variables)]) == [Visit("c", "", Input)]
  {
    var scenes := [Scene(QUESTION, variables)];
    assert Visits(scenes)[0] == Visit(QUESTION.id, QUESTION.caption, QUESTION.kind);
  }

  lemma SampleReplyEdge(h: Host, m: Node, reply: string)
    requires Captures(m) && Understood(m, reply)
    ensures var e := FindEdge(Sample(m).edges, "b", ReplyPort(m, reply)); e.Some? && e.value.target == "c"
  {
    ReplyIsOffered(m, reply);
    hide Understood, FlowPorts, MenuOptions, ReplyPort;
    ExitOf(m, ReplyPort(m, reply));
    var e := FindEdge(Edges(m), "b", ReplyPort(m, reply));
    assert e.Some?;
    EdgeOf(m, e.value);
  }

  /**
   Any capturing block whose name is unsafe, or is `message`, makes a well-formed flow that takes the reply and forgets
   it.
   */
  lemma SampleForgets(h: Host, m: Node, text: string, reply: string)
    requires Captures(m) && Configured(h, m) && NodeShape(m) && h.withinBounds(Sample(m)) && Understood(m, reply)
    requires !SafeKey(ReplyKey(m)) || ReplyKey(m) == "message"
    ensures WellFormed(h, Sample(m))
    ensures var first := Execute(h, Sample(m), Request(text, None, None));
      && first.Returned?
      && var second := Execute(h, Sample(m), Request(reply, None, Some(first.result.state)));
         && second.Returned? && second.result.state.status == Waiting
         && ReplyKey(m) in second.result.state.variables
         && second.result.state.variables[ReplyKey(m)] == ReplyValue(m, reply)
         && !Remembers(second.result.state, ReplyKey(m), ReplyValue(m, reply))
  {
    hide *;
    CapturingBlock(m);
    SampleIsWellFormedIff(h, m);
    SampleOpens(h, m, text);
    var state := Execute(h, Sample(m), Request(text, None, None)).result.state;
    SampleGoesOn(h, m, reply, state);
    var request := Request(reply, None, Some(state));
    var r := Execute(h, Sample(m), request).result;
    QuestionsLeaveAlone(Sample(m), ReplyKey(m));
    ReplyIsReturned(h, Sample(m), request, m, r);
    ReplySurvivesIff(h, Sample(m), request, m, r);
  }

  lemma QuestionsLeaveAlone(g: Graph, key: string)
    ensures LeavesAlone(g, [Visit("c", "", Input)], key)
  {
  }

  /** Three such flows: a menu under an unsafe name, a menu under `message`, and an input under `message`. */
  lemma RepliesAreForgotten(h: Host, m: Node, text: string)
    requires m == Chooser("1a") || m == Chooser("message")
      || m == Node("b", Input, "", HERE, map["variable" := Str("message")])
    requires h.withinBounds(Sample(m))
    ensures WellFormed(h, Sample(m))
    ensures var first := Execute(h, Sample(m), Request(text, None, None));
      && first.Returned?
      && var second := Execute(h, Sample(m), Request("1", None, Some(first.result.state)));
         && second.Returned? && second.result.state.status == Waiting
         && ReplyKey(m) in second.result.state.variables && second.result.state.variables[ReplyKey(m)] == "1"
         && !Remembers(second.result.state, ReplyKey(m), "1")
  {
    ForgetfulBlock(h, m);
    hide *;
    SampleForgets(h, m, text, "1");
  }

  lemma ForgetfulBlock(h: Host, m: Node)
    requires m == Chooser("1a") || m == Chooser("message")
      || m == Node("b", Input, "", HERE, map["variable" := Str("message")])
    ensures Captures(m) && Configured(h, m) && NodeShape(m) && Understood(m, "1") && ReplyValue(m, "1") == "1"
    ensures !SafeKey(ReplyKey(m)) || ReplyKey(m) == "message"
  {
    if m == Chooser("1a") {
      ForgetfulChooser(h, "1a");
    } else if m == Chooser("message") {
      ForgetfulChooser(h, "message");
    } else {
      MessageIsSafe();
      assert forall key <- m.data :: |key| <= 100;
      hide SafeKey;
    }
    hide *;
  }

  lemma ForgetfulChooser(h: Host, name: string)
    requires name == "1a" || name == "message"
    ensures var m := Chooser(name);
      Captures(m) && Configured(h, m) && NodeShape(m) && Understood(m, "1") && ReplyValue(m, "1") == "1"
      && (!SafeKey(ReplyKey(m)) || ReplyKey(m) == "message")
  {
    hide Configured, NodeShape, Understood, MenuOptions, SafeKey, Chooser, Trim;
    ChooserIsConfigured(h, name);
    ChooserFields(name);
    ShortTexts();
    StartsWithDigit();
  }

  lemma StartsWithDigit()
    ensures !SafeKey("1a")
  {
    assert "1a"[0] == '1';
  }

  lemma MessageIsSafe()
    ensures SafeKey("message")
  {
  }
}
