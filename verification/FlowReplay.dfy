/**
 A second reading of one run of `executeFlow` (packages/contracts/src/flows.ts), without a loop: a story is a list of
 blocks, with the variables as each block leaves them, in which every block hands over along a connection of the
 graph and only the last one pauses. A run returns a result exactly when a story within the limits tells it.
 */
module FlowReplay {
  import opened Wrappers
  import opened Json
  import opened FlowGraph
  import opened FlowValidator
  import opened FlowExecutor
  import opened FlowSafety
  import opened FlowTexts

  /** What a block leaves in the variables. */
  function Assigned(n: Node, variables: Variables): Variables {
    if n.kind == Variable
    then variables[ValueText(Field(n.data, "variable")) := RenderFlowText(Field(n.data, "value"), variables)]
    else variables
  }

  /** What a block says to the contact. */
  function Said(n: Node, variables: Variables): seq<string> {
    if n.kind == Message then [RenderFlowText(Field(n.data, "text"), variables)]
    else if n.kind == Menu then [MenuText(n, variables, [])]
    else if n.kind == Input && Trim(RenderFlowText(Field(n.data, "text"), variables)) != ""
      then [RenderFlowText(Field(n.data, "text"), variables)]
    else []
  }

  /** A visited block and the variables it leaves. */
  datatype Scene = Scene(block: Node, variables: Variables)

  /** `scene` hands over to `next` along a connection from the port its block takes. */
  ghost predicate HandsOver(h: Host, g: Graph, scene: Scene, next: Scene) {
    && !Pauses(scene.block.kind)
    && next.variables == Assigned(next.block, scene.variables)
    && exists e <- g.edges ::
         e.source == scene.block.id && e.port == Branch(h, scene.block, scene.variables) && e.target == next.block.id
  }

  ghost predicate Story(h: Host, g: Graph, start: string, variables: Variables, scenes: seq<Scene>) {
    && scenes != []
    && scenes[0].block.id == start && scenes[0].variables == Assigned(scenes[0].block, variables)
    && (forall i | 0 <= i < |scenes| :: scenes[i].block in g.nodes)
    && (forall i | 0 <= i < |scenes| - 1 :: HandsOver(h, g, scenes[i], scenes[i + 1]))
    && Pauses(scenes[|scenes| - 1].block.kind)
  }

  function Visits(scenes: seq<Scene>): seq<Visit> {
    seq(|scenes|, i requires 0 <= i < |scenes| =>
      Visit(scenes[i].block.id, scenes[i].block.caption, scenes[i].block.kind))
  }

  function Speech(scenes: seq<Scene>): seq<string> {
    if scenes == [] then [] else Said(scenes[0].block, scenes[0].variables) + Speech(scenes[1..])
  }

  function StatusAt(kind: NodeKind): Status {
    if kind == End then Completed else if kind == Handoff then HandedOff else Waiting
  }

  /** The result a story ends in, after what `p` had accumulated. */
  function Told(p: Progress, scenes: seq<Scene>): FlowResult
    requires scenes != []
  {
    var last := scenes[|scenes| - 1];
    var status := StatusAt(last.block.kind);
    FlowResult(
      FlowState(status, if status == Waiting then Some(last.block.id) else None, last.variables, p.steps + |scenes|),
      p.texts + Speech(scenes),
      p.trace + Visits(scenes))
  }

  predicate WithinLimits(turn: nat, p: Progress, scenes: seq<Scene>) {
    turn + |scenes| <= 100 && p.steps + |scenes| <= 1000
  }

  // ----- a step of the loop is a scene -----

  lemma LoopStep(n: Node, p: Progress)
    requires !Pauses(n.kind)
    ensures Pass(n, Enter(n, p)) == Progress(Assigned(n, p.variables), p.texts + Said(n, Assigned(n, p.variables)),
                                             p.trace + [Visit(n.id, n.caption, n.kind)], p.steps + 1)
  {
    hide RenderFlowText;
  }

  lemma LastStep(n: Node, p: Progress)
    requires Pauses(n.kind)
    ensures PauseAt(n, Enter(n, p)) == Returned(Told(p, [Scene(n, Assigned(n, p.variables))]))
  {
    hide RenderFlowText, MenuPrompt, MenuText;
    MenuSays(n, p.variables, []);
    var scenes := [Scene(n, Assigned(n, p.variables))];
    assert scenes[1..] == [];
    assert Speech(scenes) == Said(n, p.variables);
    assert Visits(scenes) == [Visit(n.id, n.caption, n.kind)];
  }

  lemma ToldFrom(n: Node, p: Progress, rest: seq<Scene>)
    requires !Pauses(n.kind) && rest != []
    ensures Told(Pass(n, Enter(n, p)), rest) == Told(p, [Scene(n, Assigned(n, p.variables))] + rest)
  {
    hide Pass, Enter, Assigned, Said;
    LoopStep(n, p);
    var scenes := [Scene(n, Assigned(n, p.variables))] + rest;
    assert scenes[1..] == rest;
    assert Visits(scenes) == [Visit(n.id, n.caption, n.kind)] + Visits(rest);
  }

  lemma StoryGrows(h: Host, g: Graph, n: Node, variables: Variables, e: Edge, rest: seq<Scene>)
    requires n in g.nodes && !Pauses(n.kind)
    requires e in g.edges && e.source == n.id && e.port == Branch(h, n, Assigned(n, variables))
    requires Story(h, g, e.target, Assigned(n, variables), rest)
    ensures Story(h, g, n.id, variables, [Scene(n, Assigned(n, variables))] + rest)
  {
    hide Assigned, Branch;
    var first := Scene(n, Assigned(n, variables));
    var scenes := [first] + rest;
    assert HandsOver(h, g, first, rest[0]);
    forall i | 0 <= i < |scenes| - 1 ensures HandsOver(h, g, scenes[i], scenes[i + 1]) {
      if i > 0 { assert HandsOver(h, g, rest[i - 1], rest[i]); }
    }
  }

  /** The second scene starts a story of its own, at the end of the one connection the run can take. */
  lemma StoryShrinks(h: Host, g: Graph, start: string, variables: Variables, scenes: seq<Scene>)
    requires OutputsFunctional(g.edges) && Story(h, g, start, variables, scenes) && |scenes| > 1
    ensures var n := scenes[0].block;
      var e := FindEdge(g.edges, n.id, Branch(h, n, scenes[0].variables));
      !Pauses(n.kind) && e.Some? && Story(h, g, e.value.target, scenes[0].variables, scenes[1..])
  {
    hide Assigned, Branch;
    var n, port := scenes[0].block, Branch(h, scenes[0].block, scenes[0].variables);
    assert HandsOver(h, g, scenes[0], scenes[1]);
    var e :| e in g.edges && e.source == n.id && e.port == port && e.target == scenes[1].block.id;
    var f := FindEdge(g.edges, n.id, port).value;
    var i :| 0 <= i < |g.edges| && g.edges[i] == e;
    var j :| 0 <= j < |g.edges| && g.edges[j] == f;
    assert i == j;
    var rest := scenes[1..];
    forall i | 0 <= i < |rest| - 1 ensures HandsOver(h, g, rest[i], rest[i + 1]) {
      assert HandsOver(h, g, scenes[i + 1], scenes[i + 2]);
    }
  }

  // ----- both directions -----

  /** A run that returns tells a story. */
  lemma {:induction false} RunTellsStory(h: Host, g: Graph, turn: nat, current: string, p: Progress)
    returns (scenes: seq<Scene>)
    requires Run(h, g, turn, current, p).Returned?
    ensures Story(h, g, current, p.variables, scenes) && WithinLimits(turn, p, scenes)
    ensures Run(h, g, turn, current, p) == Returned(Told(p, scenes))
    decreases TURNS - turn
  {
    hide Pass, PauseAt, Enter, PortTaken, Branch, Assigned, Told, FindNode, FindEdge;
    var n := FindNode(g.nodes, current).value;
    var first := Scene(n, Assigned(n, p.variables));
    if Pauses(n.kind) {
      LastStep(n, p);
      scenes := [first];
    } else {
      LoopStep(n, p);
      var passed := Pass(n, Enter(n, p));
      BranchIsTaken(h, n, passed.variables);
      var e := FindEdge(g.edges, n.id, Branch(h, n, passed.variables)).value;
      var rest := RunTellsStory(h, g, turn + 1, e.target, passed);
      ToldFrom(n, p, rest);
      StoryGrows(h, g, n, p.variables, e, rest);
      scenes := [first] + rest;
    }
  }

  /** Whatever a story within the limits tells is what the run returns. */
  lemma {:induction false} StoryIsRun(h: Host, g: Graph, turn: nat, current: string, p: Progress, scenes: seq<Scene>)
    requires Distinct(IdsOf(g.nodes)) && OutputsFunctional(g.edges)
    requires Story(h, g, current, p.variables, scenes) && WithinLimits(turn, p, scenes)
    ensures Run(h, g, turn, current, p) == Returned(Told(p, scenes))
    decreases |scenes|
  {
    hide Pass, PauseAt, Enter, PortTaken, Branch, Assigned, Told, FindNode, FindEdge, Distinct, OutputsFunctional,
         HandsOver;
    var n := scenes[0].block;
    FindIsUnique(g.nodes, n);
    if |scenes| == 1 {
      assert scenes == [Scene(n, Assigned(n, p.variables))];
      LastStep(n, p);
    } else {
      StoryShrinks(h, g, current, p.variables, scenes);
      BranchIsTaken(h, n, scenes[0].variables);
      var e := FindEdge(g.edges, n.id, Branch(h, n, scenes[0].variables)).value;
      LoopStep(n, p);
      var rest := scenes[1..];
      assert scenes == [Scene(n, Assigned(n, p.variables))] + rest;
      ToldFrom(n, p, rest);
      StoryIsRun(h, g, turn + 1, e.target, Pass(n, Enter(n, p)), rest);
    }
  }

  /** A story within the limits that ends in `r`. */
  ghost predicate Explains(h: Host, g: Graph, start: string, p: Progress, r: FlowResult, scenes: seq<Scene>) {
    Story(h, g, start, p.variables, scenes) && WithinLimits(0, p, scenes) && r == Told(p, scenes)
  }

  lemma RunIffStory(h: Host, g: Graph, start: string, p: Progress, r: FlowResult)
    requires Distinct(IdsOf(g.nodes)) && OutputsFunctional(g.edges)
    ensures Run(h, g, 0, start, p) == Returned(r) <==> exists scenes :: Explains(h, g, start, p, r, scenes)
  {
    hide Run, Story, Told, WithinLimits, OutputsFunctional, Distinct;
    if Run(h, g, 0, start, p) == Returned(r) {
      var scenes := RunTellsStory(h, g, 0, start, p);
      assert Explains(h, g, start, p, r, scenes);
    }
    forall scenes | Explains(h, g, start, p, r, scenes) ensures Run(h, g, 0, start, p) == Returned(r) {
      StoryIsRun(h, g, 0, start, p, scenes);
    }
  }

  lemma FirstMessageRuns(h: Host, g: Graph, request: Request)
    requires request.state.None? && WellFormed(h, g)
    ensures StartId(g).Some? && Distinct(IdsOf(g.nodes)) && OutputsFunctional(g.edges)
    ensures Execute(h, g, request) == Run(h, g, 0, StartId(g).value, Opening(request))
  {
    hide Run, InitialVariables, FlowErrors, StartId;
    NoErrorsIsWellFormed(h, g);
    StartIdExists(g);
  }

  /**
   A first message is answered exactly when the flow is well formed and a story from its start explains the answer.
   */
  lemma FirstMessageIsItsStory(h: Host, g: Graph, request: Request, r: FlowResult)
    requires request.state.None?
    ensures Execute(h, g, request) == Returned(r) <==>
      && WellFormed(h, g) && StartId(g).Some?
      && exists scenes :: Explains(h, g, StartId(g).value, Opening(request), r, scenes)
  {
    hide Run, Explains, InitialVariables, FlowErrors, StartId, WellFormed, OutputsFunctional, Distinct, Opening;
    NoErrorsIsWellFormed(h, g);
    if WellFormed(h, g) {
      FirstMessageRuns(h, g, request);
      RunIffStory(h, g, StartId(g).value, Opening(request), r);
    }
  }

  // ----- replies -----

  /** Any text answers an input; a menu wants the number of one of its options. */
  predicate Understood(n: Node, text: string) {
    n.kind == Input || exists o <- MenuOptions(n) :: o.value == Trim(text)
  }

  function ReplyPort(n: Node, text: string): string {
    if n.kind == Input then "next" else "option-" + Trim(text)
  }

  /** The variables once the reply is stored. */
  function Remembered(n: Node, text: string, variables: Variables): Variables {
    var name := ValueText(Field(n.data, "variable"));
    if n.kind == Input then variables[name := Take(text, 4096)]
    else variables[(if name == "" then "menu.choice" else name) := Trim(text)]
  }

  lemma UnderstoodIsFound(options: seq<MenuOption>, value: string)
    ensures FindOption(options, value).Some? <==> exists o <- options :: o.value == value
  {
  }

  lemma ReplyGoesOn(h: Host, g: Graph, request: Request, n: Node)
    requires WellFormed(h, g) && n in g.nodes && (n.kind == Input || n.kind == Menu)
    requires request.state.Some? && request.state.value.status == Waiting && request.state.value.nodeId == Some(n.id)
    ensures Execute(h, g, request) == Resume(h, g, n, request.text, Opening(request))
  {
    hide Resume, InitialVariables, FlowErrors, Opening;
    NoErrorsIsWellFormed(h, g);
    FindIsUnique(g.nodes, n);
  }

  /**
   A reply that is understood goes on along its connection with the reply remembered; the story from there is the
   answer.
   */
  lemma ReplyIsItsStory(h: Host, g: Graph, request: Request, n: Node, r: FlowResult)
    requires WellFormed(h, g) && n in g.nodes && (n.kind == Input || n.kind == Menu) && Understood(n, request.text)
    requires request.state.Some? && request.state.value.status == Waiting && request.state.value.nodeId == Some(n.id)
    ensures FindEdge(g.edges, n.id, ReplyPort(n, request.text)).Some?
    ensures var e, p := FindEdge(g.edges, n.id, ReplyPort(n, request.text)).value, Opening(request);
      Execute(h, g, request) == Returned(r) <==>
      exists scenes :: Explains(h, g, e.target, p.(variables := Remembered(n, request.text, p.variables)), r, scenes)
  {
    var p := Opening(request);
    ReplyGoesOn(h, g, request, n);
    UnderstoodIsFound(MenuOptions(n), Trim(request.text));
    ReplyIsOffered(n, request.text);
    OutputLeads(h, g, n, ReplyPort(n, request.text));
    hide Run, Explains, OutputsFunctional, Distinct, Opening, MenuText, FlowPorts, Execute;
    var e := FindEdge(g.edges, n.id, ReplyPort(n, request.text)).value;
    RunIffStory(h, g, e.target, p.(variables := Remembered(n, request.text, p.variables)), r);
  }

  lemma ReplyIsOffered(n: Node, text: string)
    requires (n.kind == Input || n.kind == Menu) && Understood(n, text)
    ensures ReplyPort(n, text) in FlowPorts(n)
  {
    if n.kind == Menu {
      var i :| 0 <= i < |MenuOptions(n)| && MenuOptions(n)[i].value == Trim(text);
      assert OptionPorts(MenuOptions(n))[i] == ReplyPort(n, text);
    }
  }

  /** Any other reply repeats the menu with a hint, and changes nothing but the message and the cleaned variables. */
  lemma OtherRepliesRepeatTheMenu(h: Host, g: Graph, request: Request, n: Node)
    requires WellFormed(h, g) && n in g.nodes && n.kind == Menu && !Understood(n, request.text)
    requires request.state.Some? && request.state.value.status == Waiting && request.state.value.nodeId == Some(n.id)
    ensures var variables := InitialVariables(request);
      var state := FlowState(Waiting, Some(n.id), variables, request.state.value.steps);
      Execute(h, g, request) ==
        Returned(FlowResult(state, [MenuText(n, variables, ["Responda com o número da opção."])], []))
  {
    hide *;
    ReplyGoesOn(h, g, request, n);
    MenuIsRepeated(h, g, n, request.text, Opening(request));
    FreshProgress(request);
  }

  lemma MenuIsRepeated(h: Host, g: Graph, n: Node, text: string, p: Progress)
    requires n.kind == Menu && !Understood(n, text)
    ensures var state := FlowState(Waiting, Some(n.id), p.variables, p.steps);
      Resume(h, g, n, text, p) ==
        Returned(FlowResult(state, p.texts + [MenuText(n, p.variables, ["Responda com o número da opção."])], p.trace))
  {
    hide Run, MenuPrompt, MenuText, MenuOptions, Trim;
    MenuSays(n, p.variables, ["Responda com o número da opção."]);
    UnderstoodIsFound(MenuOptions(n), Trim(text));
  }

  lemma FreshProgress(request: Request)
    requires request.state.Some?
    ensures Opening(request) == Progress(InitialVariables(request), [], [], request.state.value.steps)
  {
  }
}
