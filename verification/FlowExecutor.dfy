/**
 `executeFlow` of packages/contracts/src/flows.ts: one message is fed to a flow, which runs until it pauses.

 Every lookup the source dereferences without a check (`find(...)!`) yields `Crashed` when nothing is found,
 so the absence of crashes is a theorem about validation and not an assumption.
 */
module FlowExecutor {
  import opened Wrappers
  import opened Json
  import opened FlowGraph
  import opened FlowValidator

  type Variables = map<string, string>

  datatype Status = Waiting | Completed | HandedOff

  datatype FlowState = FlowState(status: Status, nodeId: Option<string>, variables: Variables, steps: nat)

  datatype Request = Request(text: string, variables: Option<Variables>, state: Option<FlowState>)

  datatype Visit = Visit(nodeId: string, caption: string, kind: NodeKind)

  datatype FlowResult = FlowResult(state: FlowState, texts: seq<string>, trace: seq<Visit>)

  datatype Failure = InvalidFlow(error: string) | InvalidCapture | StepLimit | TurnLimit

  datatype Outcome = Returned(result: FlowResult) | Thrown(failure: Failure) | Crashed

  const TURNS := 100
  const MAX_STEPS := 1000
  const RETRY_HINT := "Responda com o número da opção."

  /** What one message has accumulated so far. */
  datatype Progress = Progress(variables: Variables, texts: seq<string>, trace: seq<Visit>, steps: nat)

  function Pause(status: Status, nodeId: Option<string>, p: Progress): Outcome {
    Returned(FlowResult(FlowState(status, nodeId, p.variables, p.steps), p.texts, p.trace))
  }

  // ----- one block -----

  function MenuList(options: seq<MenuOption>): string {
    Join(seq(|options|, i requires 0 <= i < |options| => options[i].value + " - " + options[i].caption), "\n")
  }

  function MenuPrompt(n: Node, variables: Variables, hint: seq<string>): string {
    Join(NonEmpty([RenderFlowText(Field(n.data, "text"), variables), MenuList(MenuOptions(n))] + hint), "\n")
  }

  predicate Includes(a: string, b: string) {
    exists i | 0 <= i <= |a| :: b <= a[i..]
  }

  predicate Compare(h: Host, operator: Option<Json>, a: string, b: string) {
    if operator == Some(Str("present")) then Trim(a) != ""
    else if operator == Some(Str("not_equals")) then a != b
    else if operator == Some(Str("contains")) then Includes(h.lower(a), h.lower(b))
    else if operator == Some(Str("starts_with")) then h.lower(b) <= h.lower(a)
    else a == b
  }

  function PortTaken(h: Host, n: Node, variables: Variables): string {
    if n.kind == Condition then
      var key := ValueText(Field(n.data, "field"));
      var a := if key in variables then variables[key] else "";
      var b := RenderFlowText(Field(n.data, "value"), variables);
      if Compare(h, Field(n.data, "operator"), a, b) then "yes" else "no"
    else "next"
  }

  /** The effect of a block that does not pause. */
  function Pass(n: Node, p: Progress): Progress {
    match n.kind
    case Message => p.(texts := p.texts + [RenderFlowText(Field(n.data, "text"), p.variables)])
    case Variable =>
      var key, text := ValueText(Field(n.data, "variable")), RenderFlowText(Field(n.data, "value"), p.variables);
      p.(variables := p.variables[key := text])
    case _ => p
  }

  predicate Pauses(kind: NodeKind) {
    kind == End || kind == Handoff || kind == Input || kind == Menu
  }

  function PauseAt(n: Node, p: Progress): Outcome
    requires Pauses(n.kind)
  {
    match n.kind
    case End => Pause(Completed, None, p)
    case Handoff => Pause(HandedOff, None, p)
    case Input =>
      var prompt := RenderFlowText(Field(n.data, "text"), p.variables);
      Pause(Waiting, Some(n.id), if Trim(prompt) != "" then p.(texts := p.texts + [prompt]) else p)
    case Menu =>
      Pause(Waiting, Some(n.id), p.(texts := p.texts + [MenuPrompt(n, p.variables, [])]))
  }

  function Enter(n: Node, p: Progress): Progress {
    p.(steps := p.steps + 1, trace := p.trace + [Visit(n.id, n.caption, n.kind)])
  }

  // ----- one message -----

  function Run(h: Host, g: Graph, turn: nat, current: string, p: Progress): Outcome
    decreases TURNS - turn
  {
    if turn >= TURNS then Thrown(TurnLimit)
    else if p.steps + 1 > MAX_STEPS then Thrown(StepLimit)
    else
      match FindNode(g.nodes, current)
      case None => Crashed
      case Some(n) =>
        var entered := Enter(n, p);
        if Pauses(n.kind) then PauseAt(n, entered)
        else
          var passed := Pass(n, entered);
          match FindEdge(g.edges, n.id, PortTaken(h, n, passed.variables))
          case None => Crashed
          case Some(e) => Run(h, g, turn + 1, e.target, passed)
  }

  function Follow(h: Host, g: Graph, id: string, port: string, p: Progress): Outcome {
    match FindEdge(g.edges, id, port)
    case None => Crashed
    case Some(e) => Run(h, g, 0, e.target, p)
  }

  /** A reply reaches the block that waits for it. */
  function Resume(h: Host, g: Graph, n: Node, text: string, p: Progress): Outcome {
    if n.kind == Input then
      Follow(h, g, n.id, "next", p.(variables := p.variables[ValueText(Field(n.data, "variable")) := Take(text, 4096)]))
    else if n.kind == Menu then
      match FindOption(MenuOptions(n), Trim(text))
      case None => Pause(Waiting, Some(n.id), p.(texts := p.texts + [MenuPrompt(n, p.variables, [RETRY_HINT])]))
      case Some(option) =>
        var name := ValueText(Field(n.data, "variable"));
        var key := if name == "" then "menu.choice" else name;
        Follow(h, g, n.id, OptionPort(option), p.(variables := p.variables[key := Trim(text)]))
    else Thrown(InvalidCapture)
  }

  function Carried(request: Request): Variables {
    match request.state
    case Some(state) => state.variables
    case None => match request.variables case Some(variables) => variables case None => map[]
  }

  /** Unsafe names are dropped, values are cut, and the new message is always visible. */
  function InitialVariables(request: Request): Variables {
    var carried := Carried(request);
    (map key | key in carried && SafeKey(key) :: Take(carried[key], 4096))["message" := Take(request.text, 4096)]
  }

  function Opening(request: Request): Progress {
    Progress(InitialVariables(request), [], [], if request.state.Some? then request.state.value.steps else 0)
  }

  /** Execution of a flow that passed validation. */
  function ExecuteValid(h: Host, g: Graph, request: Request): Outcome {
    var p := Opening(request);
    var current :=
      if request.state.Some? && request.state.value.nodeId.Some? then request.state.value.nodeId else StartId(g);
    if current.None? then Crashed
    else if request.state.None? then Run(h, g, 0, current.value, p)
    else
      match request.state.value.status
      case Waiting =>
        (match FindNode(g.nodes, current.value)
         case None => Thrown(InvalidCapture)
         case Some(n) => Resume(h, g, n, request.text, p))
      case status => Pause(status, None, p)
  }

  ghost function Execute(h: Host, g: Graph, request: Request): Outcome {
    var errors := FlowErrors(h, g);
    if errors != [] then Thrown(InvalidFlow(errors[0])) else ExecuteValid(h, g, request)
  }

  // ----- the interpreter itself -----

  /** The bounded loop over blocks. */
  method RunLoop(h: Host, g: Graph, start: string, opening: Progress) returns (outcome: Outcome)
    ensures outcome == Run(h, g, 0, start, opening)
  {
    hide PauseAt, Pass, PortTaken, Enter, FindNode, FindEdge;
    var current, p := start, opening;
    for turn := 0 to TURNS
      invariant Run(h, g, turn, current, p) == Run(h, g, 0, start, opening)
    {
      if p.steps + 1 > MAX_STEPS { return Thrown(StepLimit); }
      var node := FindNode(g.nodes, current);
      if node.None? { return Crashed; }
      p := Enter(node.value, p);
      if Pauses(node.value.kind) { return PauseAt(node.value, p); }
      p := Pass(node.value, p);
      var edge := FindEdge(g.edges, node.value.id, PortTaken(h, node.value, p.variables));
      if edge.None? { return Crashed; }
      current := edge.value.target;
    }
    return Thrown(TurnLimit);
  }

  method ExecuteFlow(h: Host, g: Graph, request: Request) returns (outcome: Outcome)
    ensures outcome == Execute(h, g, request)
  {
    hide Run, Opening, MenuPrompt, FindNode, FindEdge, FlowErrors, WellFormed;
    var errors := ValidateFlow(h, g);
    if errors != [] { return Thrown(InvalidFlow(errors[0])); }
    var p := Opening(request);
    var current := StartId(g);
    if request.state.Some? && request.state.value.nodeId.Some? { current := request.state.value.nodeId; }
    if current.None? { return Crashed; }
    if request.state.Some? {
      if request.state.value.status != Waiting { return Pause(request.state.value.status, None, p); }
      var waiting := FindNode(g.nodes, current.value);
      if waiting.None? { return Thrown(InvalidCapture); }
      var n := waiting.value;
      var edge: Option<Edge>;
      if n.kind == Input {
        p := p.(variables := p.variables[ValueText(Field(n.data, "variable")) := Take(request.text, 4096)]);
        edge := FindEdge(g.edges, n.id, "next");
      } else if n.kind == Menu {
        var selected := Trim(request.text);
        var option := FindOption(MenuOptions(n), selected);
        if option.None? {
          return Pause(Waiting, Some(n.id), p.(texts := p.texts + [MenuPrompt(n, p.variables, [RETRY_HINT])]));
        }
        var name := ValueText(Field(n.data, "variable"));
        p := p.(variables := p.variables[(if name == "" then "menu.choice" else name) := selected]);
        edge := FindEdge(g.edges, n.id, OptionPort(option.value));
      } else {
        return Thrown(InvalidCapture);
      }
      if edge.None? { return Crashed; }
      current := Some(edge.value.target);
    }
    outcome := RunLoop(h, g, current.value, p);
  }
}
