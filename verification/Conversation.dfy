/**
 Whole conversations: the messages of one contact are fed to the same flow, each resuming from the state the
 previous one returned. A message that fails leaves the saved state untouched.
 */
module Conversation {
  import opened Wrappers
  import opened Json
  import opened FlowGraph
  import opened FlowValidator
  import opened FlowExecutor
  import opened FlowSafety

  /** The saved state, and how many blocks all returned traces have listed together. */
  datatype Talk = Talk(state: Option<FlowState>, visits: nat)

  ghost function Next(h: Host, g: Graph, first: Option<Variables>, talk: Talk, text: string): Outcome {
    Execute(h, g, Request(text, first, talk.state))
  }

  ghost function Converse(h: Host, g: Graph, first: Option<Variables>, texts: seq<string>): Talk {
    if texts == [] then Talk(None, 0)
    else
      var talk := Converse(h, g, first, texts[..|texts| - 1]);
      match Next(h, g, first, talk, texts[|texts| - 1])
      case Returned(r) => Talk(Some(r.state), talk.visits + |r.trace|)
      case _ => talk
  }

  // ----- values stay within 4096 characters -----

  ghost predicate Bounded(variables: Variables) {
    forall key <- variables :: |variables[key]| <= 4096
  }

  lemma {:induction false} RunKeepsBounds(h: Host, g: Graph, turn: nat, current: string, p: Progress)
    requires Bounded(p.variables)
    ensures var o := Run(h, g, turn, current, p); o.Returned? ==> Bounded(o.result.state.variables)
    decreases TURNS - turn
  {
    hide PortTaken, MenuPrompt, RenderFlowText;
    if turn < TURNS && p.steps + 1 <= MAX_STEPS && FindNode(g.nodes, current).Some? {
      var n := FindNode(g.nodes, current).value;
      if !Pauses(n.kind) {
        var passed := Pass(n, Enter(n, p));
        var e := FindEdge(g.edges, n.id, PortTaken(h, n, passed.variables));
        if e.Some? { RunKeepsBounds(h, g, turn + 1, e.value.target, passed); }
      }
    }
  }

  lemma ResumeKeepsBounds(h: Host, g: Graph, n: Node, text: string, p: Progress)
    requires Bounded(p.variables)
    ensures var o := Resume(h, g, n, text, p); o.Returned? ==> Bounded(o.result.state.variables)
  {
    hide Run, MenuPrompt;
    if n.kind == Input {
      var p' := p.(variables := p.variables[ValueText(Field(n.data, "variable")) := Take(text, 4096)]);
      var e := FindEdge(g.edges, n.id, "next");
      if e.Some? { RunKeepsBounds(h, g, 0, e.value.target, p'); }
    } else if n.kind == Menu {
      var option := FindOption(MenuOptions(n), Trim(text));
      if option.Some? {
        var name := ValueText(Field(n.data, "variable"));
        var p' := p.(variables := p.variables[(if name == "" then "menu.choice" else name) := Trim(text)]);
        var e := FindEdge(g.edges, n.id, OptionPort(option.value));
        if e.Some? { RunKeepsBounds(h, g, 0, e.value.target, p'); }
      }
    }
  }

  /** Whatever the caller hands in, no returned variable exceeds 4096 characters. */
  lemma ValuesStayBounded(h: Host, g: Graph, request: Request)
    ensures var o := Execute(h, g, request); o.Returned? ==> Bounded(o.result.state.variables)
  {
    hide Run, Resume, FlowErrors;
    var p := Opening(request);
    var current :=
      if request.state.Some? && request.state.value.nodeId.Some? then request.state.value.nodeId else StartId(g);
    if current.Some? {
      RunKeepsBounds(h, g, 0, current.value, p);
      var n := FindNode(g.nodes, current.value);
      if n.Some? { ResumeKeepsBounds(h, g, n.value, request.text, p); }
    }
  }

  // ----- the invariant of every conversation -----

  ghost predicate TalkInvariant(g: Graph, talk: Talk) {
    match talk.state
    case None => talk.visits == 0
    case Some(state) =>
      && state.steps == talk.visits <= MAX_STEPS
      && Bounded(state.variables)
      && (if state.status == Waiting then WaitsAtCapture(g, state) else state.nodeId == None)
  }

  /** More than `bound` different blocks lie on a trail from where the message enters. */
  ghost predicate Oversized(g: Graph, request: Request, bound: int) {
    EntersLongTrail(g, request, bound) && |g.nodes| > bound
  }

  lemma MessageKeepsInvariant(h: Host, g: Graph, first: Option<Variables>, talk: Talk, text: string)
    requires WellFormed(h, g) && TalkInvariant(g, talk)
    ensures match Next(h, g, first, talk, text)
      case Returned(r) => TalkInvariant(g, Talk(Some(r.state), talk.visits + |r.trace|))
      case Thrown(StepLimit) => Oversized(g, Request(text, first, talk.state), MAX_STEPS - talk.visits)
      case Thrown(failure) => failure == TurnLimit && Oversized(g, Request(text, first, talk.state), TURNS)
      case Crashed => false
  {
    hide Execute, WellFormed, Trail, InitialVariables, EntersLongTrail;
    var request := Request(text, first, talk.state);
    ValidatedFlowNeverCrashes(h, g, request);
    ValuesStayBounded(h, g, request);
    var o := Execute(h, g, request);
    if o.Returned? && o.result.trace != [] {
      var v := o.result.trace[|o.result.trace| - 1];
      assert VisitOf(g, v);
    }
  }

  /**
   Over any conversation with a validated flow: the steps on record are exactly the blocks the traces listed, never
   more than a thousand; a waiting state can be resumed; every value is at most 4096 characters long.
   */
  lemma {:induction false} ConversationInvariant(h: Host, g: Graph, first: Option<Variables>, texts: seq<string>)
    requires WellFormed(h, g)
    ensures TalkInvariant(g, Converse(h, g, first, texts))
    decreases |texts|
  {
    hide WellFormed, TalkInvariant, Next;
    if texts != [] {
      ConversationInvariant(h, g, first, texts[..|texts| - 1]);
      MessageKeepsInvariant(h, g, first, Converse(h, g, first, texts[..|texts| - 1]), texts[|texts| - 1]);
    } else {
      NothingSaid(g);
    }
  }

  lemma NothingSaid(g: Graph)
    ensures TalkInvariant(g, Talk(None, 0))
  {
  }

  /** No message of a conversation fails except for lack of steps or turns before a trail that is too long for them. */
  lemma ConversationNeverBreaks(h: Host, g: Graph, first: Option<Variables>, texts: seq<string>, text: string)
    requires WellFormed(h, g)
    ensures var talk := Converse(h, g, first, texts);
      match Next(h, g, first, talk, text)
      case Returned(_) => true
      case Thrown(StepLimit) => Oversized(g, Request(text, first, talk.state), MAX_STEPS - talk.visits)
      case Thrown(failure) => failure == TurnLimit && Oversized(g, Request(text, first, talk.state), TURNS)
      case Crashed => false
  {
    hide WellFormed, TalkInvariant, Next, Oversized;
    ConversationInvariant(h, g, first, texts);
    MessageKeepsInvariant(h, g, first, Converse(h, g, first, texts), text);
  }

  /** A completed or handed-off conversation stays so, and visits nothing more. */
  lemma {:induction false} FinishedIsAbsorbing(h: Host, g: Graph, first: Option<Variables>, texts: seq<string>,
                                               more: seq<string>)
    requires WellFormed(h, g)
    requires var talk := Converse(h, g, first, texts); talk.state.Some? && talk.state.value.status != Waiting
    ensures var before, after := Converse(h, g, first, texts), Converse(h, g, first, texts + more);
      && after.visits == before.visits
      && after.state.Some? && after.state.value.status == before.state.value.status
      && after.state.value.nodeId == None && after.state.value.steps == before.state.value.steps
    decreases |more|
  {
    hide WellFormed, Execute;
    if more == [] {
      assert texts + more == texts;
      ConversationInvariant(h, g, first, texts);
    } else {
      var init := more[..|more| - 1];
      FinishedIsAbsorbing(h, g, first, texts, init);
      var all := texts + more;
      assert all[..|all| - 1] == texts + init;
      var talk := Converse(h, g, first, texts + init);
      FinishedEchoes(h, g, Request(all[|all| - 1], first, talk.state));
    }
  }

  lemma FinishedEchoes(h: Host, g: Graph, request: Request)
    requires WellFormed(h, g) && request.state.Some? && request.state.value.status != Waiting
    ensures var state := request.state.value;
      Execute(h, g, request) ==
        Returned(FlowResult(FlowState(state.status, None, InitialVariables(request), state.steps), [], []))
  {
    hide Run, Sound, Shape, FlowErrors, InitialVariables;
    NoErrorsIsWellFormed(h, g);
    StartIsNoCapture(h, g);
  }
}
