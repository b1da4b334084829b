/**
 What flows make of texts: which way a condition goes, what a menu says, and how much of a rendered text is kept.
 These laws do not mention how the interpreter computes any of it.
 */
module FlowTexts {
  import opened Wrappers
  import opened Json
  import opened TextLaws
  import opened FlowGraph
  import opened FlowExecutor

  // ----- conditions -----

  /** The value a condition looks at: that of its variable, or nothing. */
  function Subject(n: Node, variables: Variables): string {
    var name := ValueText(Field(n.data, "field"));
    if name in variables then variables[name] else ""
  }

  /** The value it is compared with. */
  function Pattern(n: Node, variables: Variables): string {
    RenderFlowText(Field(n.data, "value"), variables)
  }

  ghost predicate HasText(n: Node, operator: string) {
    Field(n.data, "operator") == Some(Str(operator))
  }

  ghost predicate OtherOperator(n: Node) {
    !HasText(n, "present") && !HasText(n, "not_equals") && !HasText(n, "contains") && !HasText(n, "starts_with")
  }

  /** The condition of a block, by its operator; whatever is no other operator asks for equality. */
  ghost predicate Meets(h: Host, n: Node, variables: Variables) {
    var a, b := Subject(n, variables), Pattern(n, variables);
    && (HasText(n, "present") ==> exists c <- a :: !IsSpace(c))
    && (HasText(n, "not_equals") ==> a != b)
    && (HasText(n, "contains") ==> exists x, y :: h.lower(a) == x + h.lower(b) + y)
    && (HasText(n, "starts_with") ==> exists y :: h.lower(a) == h.lower(b) + y)
    && (OtherOperator(n) ==> a == b)
  }

  /** The output by which a block that does not pause is left. */
  ghost function Branch(h: Host, n: Node, variables: Variables): string {
    if n.kind != Condition then "next" else if Meets(h, n, variables) then "yes" else "no"
  }

  lemma IncludesIff(a: string, b: string)
    ensures Includes(a, b) <==> exists x, y :: a == x + b + y
  {
    if Includes(a, b) {
      var i :| 0 <= i <= |a| && b <= a[i..];
      assert a == a[..i] + b + a[i..][|b|..];
    }
    if x, y :| a == x + b + y {
      assert a[|x|..] == b + y;
    }
  }

  lemma PrefixIff(a: string, b: string)
    ensures b <= a <==> exists y :: a == b + y
  {
    if b <= a { assert a == b + a[|b|..]; }
  }

  lemma OperatorsDiffer()
    ensures "present" != "not_equals" && "present" != "contains" && "present" != "starts_with"
    ensures "not_equals" != "contains" && "not_equals" != "starts_with" && "contains" != "starts_with"
  {
    assert "present"[0] == 'p' && "not_equals"[0] == 'n' && "contains"[0] == 'c' && "starts_with"[0] == 's';
  }

  /** Every block is left by the output that its condition, if it is one, says. */
  lemma BranchIsTaken(h: Host, n: Node, variables: Variables)
    ensures PortTaken(h, n, variables) == Branch(h, n, variables)
  {
    hide RenderFlowText, ValueText, Includes, Trim, IsSpace;
    var a, b := Subject(n, variables), Pattern(n, variables);
    OperatorsDiffer();
    TrimIsEmptyIff(a);
    IncludesIff(h.lower(a), h.lower(b));
    PrefixIff(h.lower(a), h.lower(b));
  }

  /**
   A run that reaches a condition goes on at the end of its connection `yes` if the condition is met, and of its
   connection `no` if not.
   */
  lemma ConditionsDecideRuns(h: Host, g: Graph, turn: nat, n: Node, p: Progress)
    requires FindNode(g.nodes, n.id) == Some(n) && n.kind == Condition && turn < TURNS && p.steps < MAX_STEPS
    ensures var port := if Meets(h, n, p.variables) then "yes" else "no";
      var visited := p.(steps := p.steps + 1, trace := p.trace + [Visit(n.id, n.caption, Condition)]);
      match FindEdge(g.edges, n.id, port)
      case Some(e) => Run(h, g, turn, n.id, p) == Run(h, g, turn + 1, e.target, visited)
      case None => Run(h, g, turn, n.id, p) == Crashed
  {
    BranchIsTaken(h, n, p.variables);
    ConditionPasses(n, Enter(n, p));
    hide Meets, PortTaken, FindNode, FindEdge, Pass, PauseAt, Pauses;
  }

  lemma ConditionPasses(n: Node, p: Progress)
    requires n.kind == Condition
    ensures !Pauses(n.kind) && Pass(n, p) == p
  {
  }

  // ----- menus -----

  /** One line for each option. */
  function OptionLines(options: seq<MenuOption>): (lines: seq<string>)
    ensures |lines| == |options|
    ensures forall i | 0 <= i < |options| :: lines[i] == options[i].value + " - " + options[i].caption
  {
    seq(|options|, i requires 0 <= i < |options| => options[i].value + " - " + options[i].caption)
  }

  lemma {:induction false} JoinSplits(xs: seq<string>, ys: seq<string>, separator: string)
    requires xs != [] && ys != []
    ensures Join(xs + ys, separator) == Join(xs, separator) + separator + Join(ys, separator)
  {
    if |xs| == 1 {
      assert (xs + ys)[1..] == ys;
    } else {
      JoinSplits(xs[1..], ys, separator);
      assert (xs + ys)[1..] == xs[1..] + ys;
    }
  }

  lemma JoinIsEmptyIff(lines: seq<string>)
    requires "" !in lines
    ensures Join(lines, "\n") == "" <==> lines == []
  {
    if lines != [] { assert lines[0] in lines; }
  }

  lemma LinesAreNotEmpty(options: seq<MenuOption>)
    ensures "" !in OptionLines(options)
  {
    forall line <- OptionLines(options) ensures line != "" {
      var i :| 0 <= i < |options| && OptionLines(options)[i] == line;
    }
  }

  /** A part that is empty is left out; any other is put in front of the rest, on lines of its own. */
  lemma OnePart(part: string, rest: seq<string>)
    ensures NonEmpty([part] + rest) == (if part == "" then [] else [part]) + NonEmpty(rest)
  {
    assert ([part] + rest)[1..] == rest;
  }

  function OneOrNone(part: string): seq<string> {
    if part == "" then [] else [part]
  }

  lemma PartsKept(prompt: string, list: string, hint: seq<string>)
    requires "" !in hint && |hint| <= 1
    ensures NonEmpty([prompt, list] + hint) == OneOrNone(prompt) + (OneOrNone(list) + hint)
  {
    assert [prompt, list] + hint == [prompt] + ([list] + hint);
    OnePart(prompt, [list] + hint);
    OnePart(list, hint);
    if hint != [] {
      assert hint[0] in hint && hint == [hint[0]] + [];
      OnePart(hint[0], []);
    }
    assert NonEmpty(hint) == hint;
    hide NonEmpty;
  }

  lemma PartsJoin(prompt: string, lines: seq<string>, hint: seq<string>)
    requires "" !in lines && "" !in hint && |hint| <= 1
    ensures Join(NonEmpty([prompt, Join(lines, "\n")] + hint), "\n") ==
      Join(OneOrNone(prompt) + lines + hint, "\n")
  {
    hide Join, NonEmpty;
    var list := Join(lines, "\n");
    PartsKept(prompt, list, hint);
    TailJoins(lines, hint);
    var tail := OneOrNone(list) + hint;
    assert OneOrNone(prompt) + lines + hint == OneOrNone(prompt) + (lines + hint);
    if prompt == "" {
      assert [] + tail == tail && [] + (lines + hint) == lines + hint;
    } else if tail == [] {
      assert lines + hint == [];
    } else {
      JoinSplits([prompt], tail, "\n");
      JoinSplits([prompt], lines + hint, "\n");
    }
  }

  lemma TailJoins(lines: seq<string>, hint: seq<string>)
    requires "" !in lines && "" !in hint && |hint| <= 1
    ensures var tail := OneOrNone(Join(lines, "\n")) + hint;
      Join(tail, "\n") == Join(lines + hint, "\n") && (tail == [] <==> lines + hint == [])
  {
    var list := Join(lines, "\n");
    JoinIsEmptyIff(lines);
    assert Join([list], "\n") == list;
    hide Join;
    if lines == [] {
      assert [] + hint == hint && lines + hint == hint;
    } else if hint == [] {
      assert [list] + hint == [list] && lines + hint == lines;
    } else {
      JoinSplits(lines, hint, "\n");
      JoinSplits([list], hint, "\n");
    }
  }

  /** The text of a menu, unless that is empty, then a line for each option, then the hint if there is one. */
  function MenuText(n: Node, variables: Variables, hint: seq<string>): string {
    Join(OneOrNone(RenderFlowText(Field(n.data, "text"), variables)) + OptionLines(MenuOptions(n)) + hint, "\n")
  }

  /** That is what a menu says. */
  lemma MenuSays(n: Node, variables: Variables, hint: seq<string>)
    requires "" !in hint && |hint| <= 1
    ensures MenuPrompt(n, variables, hint) == MenuText(n, variables, hint)
  {
    var options, prompt := MenuOptions(n), RenderFlowText(Field(n.data, "text"), variables);
    hide RenderFlowText, MenuOptions, NonEmpty, Join;
    LinesAreNotEmpty(options);
    assert MenuList(options) == Join(OptionLines(options), "\n") by { ListIsJoined(options); }
    PartsJoin(prompt, OptionLines(options), hint);
  }

  lemma ListIsJoined(options: seq<MenuOption>)
    ensures MenuList(options) == Join(OptionLines(options), "\n")
  {
    assert seq(|options|, i requires 0 <= i < |options| => options[i].value + " - " + options[i].caption)
      == OptionLines(options);
  }

  // ----- rendered texts -----

  /** What is kept of an expanded text is its beginning, up to 4096 characters. */
  lemma RenderingCuts(text: Option<Json>, variables: Variables)
    ensures var full, kept := Expand(ValueText(text), variables), RenderFlowText(text, variables);
      kept <= full && (if |full| <= 4096 then kept == full else |kept| == 4096)
  {
    hide Expand;
  }

  // ----- what a message begins with -----

  /** The beginning of a text, up to 4096 characters. */
  predicate CutOf(full: string, kept: string) {
    kept <= full && if |full| <= 4096 then kept == full else |kept| == 4096
  }

  /** The variables that come with a request: those of the saved state, or else those the caller gives. */
  predicate ComesWith(request: Request, given: Variables) {
    if request.state.Some? then given == request.state.value.variables
    else given == if request.variables.Some? then request.variables.value else map[]
  }

  /**
   A message begins with the variables that have safe names, cut to 4096 characters, and with itself under `message`;
   nothing is said or visited yet, and the steps are those of the saved state.
   */
  lemma MessageOpens(request: Request, given: Variables)
    requires ComesWith(request, given)
    ensures var p := Opening(request);
      && p.texts == [] && p.trace == [] && p.steps == (if request.state.Some? then request.state.value.steps else 0)
      && (forall key :: key in p.variables <==> key == "message" || (key in given && SafeKey(key)))
      && CutOf(request.text, p.variables["message"])
      && forall key | key in given && SafeKey(key) && key != "message" :: CutOf(given[key], p.variables[key])
  {
    hide SafeKey;
  }

  predicate IsLetter(c: char) {
    'a' <= c <= 'z' || 'A' <= c <= 'Z'
  }

  /** Some part of the name between dots is one that objects inherit. */
  ghost predicate HasInheritedPart(key: string) {
    exists part, x, y | part in {"__proto__", "prototype", "constructor"} :: StandsIn(key, '.', part, x, y)
  }

  lemma InheritedIff(key: string)
    ensures HasInheritedPart(key) <==>
      exists part <- Split(key, '.') :: part in {"__proto__", "prototype", "constructor"}
  {
    hide StandsIn, Split;
    if part :| part in Split(key, '.') && part in {"__proto__", "prototype", "constructor"} {
      PartIff(key, '.', part);
    }
    if part, x, y :| part in {"__proto__", "prototype", "constructor"} && StandsIn(key, '.', part, x, y) {
      PartIff(key, '.', part);
    }
  }

  /** Which names are safe. */
  lemma SafeKeyIff(key: string)
    ensures SafeKey(key) <==>
      && 1 <= |key| <= 100
      && (IsLetter(key[0]) || key[0] == '_')
      && (forall c <- key :: IsLetter(c) || '0' <= c <= '9' || c == '_' || c == '.' || c == '-')
      && !HasInheritedPart(key)
  {
    hide HasInheritedPart, Split;
    InheritedIff(key);
    var names := {"__proto__", "prototype", "constructor"};
    assert (forall part <- Split(key, '.') :: part !in names) <==> !exists part <- Split(key, '.') :: part in names;
  }

  // ----- the numbers of options -----

  function Digit(d: nat): char
    requires d <= 9
  {
    '0' + d as char
  }

  /** A number below 100 as it is written, without leading zeros. */
  function Decimal(v: nat): string
    requires v <= 99
  {
    if v <= 9 then [Digit(v)] else [Digit(v / 10), Digit(v % 10)]
  }

  lemma DigitIs(c: char) returns (d: nat)
    requires '0' <= c <= '9'
    ensures d <= 9 && c == Digit(d)
  {
    d := (c - '0') as nat;
  }

  /** Options are numbered from 1 to 99. */
  lemma OptionNumberIff(s: string)
    ensures IsOptionNumber(s) <==> exists v: nat | 1 <= v <= 99 :: s == Decimal(v)
  {
    if IsOptionNumber(s) {
      var d := DigitIs(s[0]);
      if |s| == 1 {
        assert s == Decimal(d);
      } else {
        var e := DigitIs(s[1]);
        var v := 10 * d + e;
        assert v / 10 == d && v % 10 == e;
        assert s == Decimal(v);
      }
    }
  }
}
