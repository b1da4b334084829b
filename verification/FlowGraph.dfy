/**
 The flow language of packages/contracts/src/flows.ts: graphs, ports, menu options, lookups and text
 substitution.
 */
module FlowGraph {
  import opened Wrappers
  import opened Json

  /** A kind of block outside the eight historical ones, by its name. */
  type OtherName = name: string |
    name !in {"start", "message", "input", "menu", "condition", "variable", "handoff", "end"} witness ""

  datatype NodeKind =
    | Start | Message | Input | Menu | Condition | Variable | Handoff | End
    | Other(name: OtherName)

  /** Canvas coordinates, by the text they print as. */
  datatype Position = Position(x: NumberText, y: NumberText)

  datatype Node = Node(id: string, kind: NodeKind, caption: string, position: Position, data: Fields)

  datatype Edge = Edge(id: string, source: string, target: string, port: string)

  datatype Graph = Graph(nodes: seq<Node>, edges: seq<Edge>)

  datatype MenuOption = MenuOption(value: string, caption: string)

  /** What the language delegates to the JavaScript engine or to the schema library. */
  datatype Host = Host(
    number: Json -> JsNumber,      // Number(x)
    lower: string -> string,       // x.toLocaleLowerCase()
    withinBounds: Graph -> bool    // positions in range, and at most 250000 characters of JSON
  )

  // ----- the graph schema -----

  function KindText(kind: NodeKind): string {
    match kind
    case Start => "start"
    case Message => "message"
    case Input => "input"
    case Menu => "menu"
    case Condition => "condition"
    case Variable => "variable"
    case Handoff => "handoff"
    case End => "end"
    case Other(name) => name
  }

  predicate IdOk(id: string) {
    1 <= |id| <= 100
  }

  predicate NodeShape(n: Node) {
    IdOk(n.id) && IdOk(KindText(n.kind)) && |n.caption| <= 160 && forall key <- n.data :: |key| <= 100
  }

  predicate EdgeShape(e: Edge) {
    IdOk(e.id) && IdOk(e.source) && IdOk(e.target) && IdOk(e.port)
  }

  predicate Shape(h: Host, g: Graph) {
    && 1 <= |g.nodes| <= 150
    && |g.edges| <= 300
    && (forall n <- g.nodes :: NodeShape(n))
    && (forall e <- g.edges :: EdgeShape(e))
    && h.withinBounds(g)
  }

  // ----- keys -----

  predicate IsKeyStart(c: char) {
    'a' <= c <= 'z' || 'A' <= c <= 'Z' || c == '_'
  }

  predicate IsKeyChar(c: char) {
    IsKeyStart(c) || '0' <= c <= '9' || c == '.' || c == '-'
  }

  predicate SafeKey(key: string) {
    && 1 <= |key| <= 100
    && IsKeyStart(key[0])
    && (forall c <- key :: IsKeyChar(c))
    && (forall part <- Split(key, '.') :: part !in {"__proto__", "prototype", "constructor"})
  }

  predicate SafeKeyField(value: Option<Json>) {
    value.Some? && value.value.Str? && SafeKey(value.value.s)
  }

  // ----- menus and ports -----

  /** `/^[1-9][0-9]{0,1}$/`. */
  predicate IsOptionNumber(s: string) {
    1 <= |s| <= 2 && '1' <= s[0] <= '9' && (|s| == 2 ==> '0' <= s[1] <= '9')
  }

  function ReadOption(raw: Json): seq<MenuOption> {
    if !raw.Obj? then []
    else
      var number := Trim(ValueText(Field(raw.fields, "value")));
      var caption := Trim(ValueText(Field(raw.fields, "label")));
      if IsOptionNumber(number) && 1 <= |caption| <= 120 then [MenuOption(number, caption)] else []
  }

  function ReadOptions(raws: seq<Json>): (options: seq<MenuOption>)
    ensures |options| <= |raws|
    ensures forall o <- options :: IsOptionNumber(o.value)
  {
    if raws == [] then [] else ReadOption(raws[0]) + ReadOptions(raws[1..])
  }

  function RawOptions(n: Node): seq<Json> {
    match Field(n.data, "options")
    case Some(Arr(items)) => items
    case _ => []
  }

  /** What one raw option must be to count. */
  predicate LegalOption(raw: Json) {
    raw.Obj? && IsOptionNumber(Trim(ValueText(Field(raw.fields, "value"))))
    && 1 <= |Trim(ValueText(Field(raw.fields, "label")))| <= 120
  }

  function OptionOf(raw: Json): MenuOption
    requires raw.Obj?
  {
    MenuOption(Trim(ValueText(Field(raw.fields, "value"))), Trim(ValueText(Field(raw.fields, "label"))))
  }

  predicate IsOptionOf(o: MenuOption, raw: Json) {
    LegalOption(raw) && o == OptionOf(raw)
  }

  lemma OneOptionIsRead(raw: Json)
    ensures ReadOption(raw) == if LegalOption(raw) then [OptionOf(raw)] else []
  {
    hide IsOptionNumber, Trim, ValueText;
  }

  /** The options of a menu are its legal ones and no other; none is dropped exactly when all are legal. */
  lemma {:induction false} OptionsAreTheLegalOnes(raws: seq<Json>, o: MenuOption)
    ensures o in ReadOptions(raws) <==> exists raw <- raws :: IsOptionOf(o, raw)
    ensures |ReadOptions(raws)| == |raws| <==> forall raw <- raws :: LegalOption(raw)
  {
    hide LegalOption, OptionOf, ReadOption;
    if raws != [] {
      OptionsAreTheLegalOnes(raws[1..], o);
      OneOptionIsRead(raws[0]);
      assert raws == [raws[0]] + raws[1..];
      assert forall raw :: raw in raws <==> raw == raws[0] || raw in raws[1..];
      assert IsOptionOf(o, raws[0]) <==> o in ReadOption(raws[0]);
    }
  }

  function MenuOptions(n: Node): (options: seq<MenuOption>)
    ensures forall o <- options :: IsOptionNumber(o.value)
  {
    if n.kind == Menu then ReadOptions(RawOptions(n)) else []
  }

  function OptionPort(o: MenuOption): string {
    "option-" + o.value
  }

  function OptionPorts(options: seq<MenuOption>): (ports: seq<string>)
    ensures |ports| == |options|
    ensures forall i | 0 <= i < |options| :: ports[i] == OptionPort(options[i])
  {
    seq(|options|, i requires 0 <= i < |options| => OptionPort(options[i]))
  }

  function FlowPorts(n: Node): seq<string> {
    match n.kind
    case Condition => ["yes", "no"]
    case Menu => OptionPorts(MenuOptions(n))
    case End => []
    case Handoff => []
    case _ => ["next"]
  }

  function FindOption(options: seq<MenuOption>, value: string): (o: Option<MenuOption>)
    ensures o.Some? ==> o.value in options && o.value.value == value
  {
    if options == [] then None
    else if options[0].value == value then Some(options[0])
    else FindOption(options[1..], value)
  }

  // ----- lookups: `find` returns the first match -----

  function FindNode(nodes: seq<Node>, id: string): (n: Option<Node>)
    ensures n.Some? ==> n.value in nodes && n.value.id == id
    ensures n.None? ==> forall m <- nodes :: m.id != id
  {
    if nodes == [] then None
    else if nodes[0].id == id then Some(nodes[0])
    else FindNode(nodes[1..], id)
  }

  function FindKind(nodes: seq<Node>, kind: NodeKind): (n: Option<Node>)
    ensures n.Some? ==> n.value in nodes && n.value.kind == kind
    ensures n.None? ==> forall m <- nodes :: m.kind != kind
  {
    if nodes == [] then None
    else if nodes[0].kind == kind then Some(nodes[0])
    else FindKind(nodes[1..], kind)
  }

  function FindEdge(edges: seq<Edge>, source: string, port: string): (e: Option<Edge>)
    ensures e.Some? ==> e.value in edges && e.value.source == source && e.value.port == port
    ensures e.None? ==> forall x <- edges :: x.source == source ==> x.port != port
  {
    if edges == [] then None
    else if edges[0].source == source && edges[0].port == port then Some(edges[0])
    else FindEdge(edges[1..], source, port)
  }

  function NodeIds(nodes: seq<Node>): (ids: set<string>)
    ensures forall id :: id in ids <==> exists n <- nodes :: n.id == id
  {
    set n <- nodes :: n.id
  }

  // ----- text substitution -----

  /** Length of the longest brace-free prefix. */
  function KeyRun(s: string): (n: nat)
    ensures n <= |s|
  {
    if s != [] && s[0] != '{' && s[0] != '}' then 1 + KeyRun(s[1..]) else 0
  }

  /** Length of the placeholder `{{ key }}` at the head of `s`, or 0 when there is none. */
  function PlaceholderAt(s: string): (n: nat)
    ensures n <= |s|
    ensures n > 0 ==> n >= 5
  {
    if |s| >= 2 && s[0] == '{' && s[1] == '{' then
      var run := KeyRun(s[2..]);
      if run > 0 && |s| >= run + 4 && s[run + 2] == '}' && s[run + 3] == '}' then run + 4 else 0
    else 0
  }

  function Substitute(key: string, variables: map<string, string>): string {
    if SafeKey(key) && key in variables then variables[key] else ""
  }

  function Expand(s: string, variables: map<string, string>): string {
    if s == [] then []
    else
      var n := PlaceholderAt(s);
      if n == 0 then [s[0]] + Expand(s[1..], variables)
      else Substitute(Trim(s[2..n - 2]), variables) + Expand(s[n..], variables)
  }

  function RenderFlowText(text: Option<Json>, variables: map<string, string>): (r: string)
    ensures |r| <= 4096
  {
    Take(Expand(ValueText(text), variables), 4096)
  }

  lemma {:induction false} KeyRunOf(key: string, rest: string)
    requires (forall c <- key :: c != '{' && c != '}') && rest != "" && rest[0] == '}'
    ensures KeyRun(key + rest) == |key|
  {
    if key == "" {
      assert key + rest == rest;
    } else {
      assert key + rest == [key[0]] + (key[1..] + rest);
      assert forall c <- key[1..] :: c in key;
      assert key[0] in key;
      KeyRunOf(key[1..], rest);
    }
  }

  /** Text without two opening braces in a row is rendered as it stands. */
  lemma {:induction false} PlainTextIsKept(s: string, variables: map<string, string>)
    requires forall i | 0 <= i < |s| - 1 :: !(s[i] == '{' && s[i + 1] == '{')
    ensures Expand(s, variables) == s
  {
    if s != "" {
      forall i | 0 <= i < |s| - 2 ensures !(s[1..][i] == '{' && s[1..][i + 1] == '{') {
        assert s[1..][i] == s[i + 1] && s[1..][i + 1] == s[i + 2];
      }
      PlainTextIsKept(s[1..], variables);
      assert s == [s[0]] + s[1..];
    }
  }

  lemma PlaceholderHere(key: string, after: string)
    requires key != "" && forall c <- key :: c != '{' && c != '}'
    ensures var s, n := "{{" + (key + ("}}" + after)), |key| + 4;
      |s| >= n && PlaceholderAt(s) == n && s[2..n - 2] == key && s[n..] == after
  {
    var s := "{{" + (key + ("}}" + after));
    assert s[2..] == key + ("}}" + after);
    KeyRunOf(key, "}}" + after);
    assert s[2..|key| + 2] == key && s[|key| + 4..] == after;
  }

  lemma NoBraceStays(c: char, s: string, variables: map<string, string>)
    requires c != '{'
    ensures Expand([c] + s, variables) == [c] + Expand(s, variables)
  {
    assert ([c] + s)[1..] == s;
  }

  /** A placeholder gives way to the value of its trimmed key: nothing at all when the key is unsafe or unknown. */
  lemma {:induction false} PlaceholderIsReplaced(before: string, key: string, after: string,
                                                 variables: map<string, string>)
    requires (forall c <- before :: c != '{') && key != "" && forall c <- key :: c != '{' && c != '}'
    ensures Expand(before + ("{{" + (key + ("}}" + after))), variables)
         == before + ((if SafeKey(Trim(key)) && Trim(key) in variables then variables[Trim(key)] else "")
           + Expand(after, variables))
    decreases |before|
  {
    hide SafeKey, Trim, PlaceholderAt;
    var tail := "{{" + (key + ("}}" + after));
    if before == "" {
      assert before + tail == tail;
      PlaceholderHere(key, after);
    } else {
      var rest := before[1..];
      assert forall c <- rest :: c in before;
      assert before == [before[0]] + rest && before[0] in before;
      assert before + tail == [before[0]] + (rest + tail);
      NoBraceStays(before[0], rest + tail, variables);
      PlaceholderIsReplaced(rest, key, after, variables);
    }
  }
}
