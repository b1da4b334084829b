/**
 The CSV texts that apps/web/src/broker/import.ts accepts, as a grammar: cells with or without quotes, each followed by
 a delimiter or a line end. Every text is read as the grammar says, and is refused exactly for one of three mistakes.
 */
module CsvGrammar {
  import opened Wrappers
  import opened Json
  import opened TextLaws
  import opened ProvisioningCsv

  // ----- the grammar -----

  /** A cell as it may be written: as it stands, or in quotes with the quotes inside doubled. */
  datatype Cell = Plain(text: string) | Quoted(text: string)

  /** A cell and what separates it from the next one. */
  datatype Item = Item(cell: Cell, separator: string)

  predicate Special(c: char, delimiter: char) {
    c == '\"' || c == delimiter || c == '\n' || c == '\r'
  }

  predicate PlainText(text: string, delimiter: char) {
    forall c <- text :: !Special(c, delimiter)
  }

  predicate CellOk(cell: Cell, delimiter: char) {
    cell.Plain? ==> PlainText(cell.text, delimiter)
  }

  predicate IsLineEnd(separator: string) {
    separator == "\n" || separator == "\r" || separator == "\r\n"
  }

  predicate ItemOk(item: Item, delimiter: char) {
    CellOk(item.cell, delimiter) && (item.separator == [delimiter] || IsLineEnd(item.separator))
  }

  predicate ItemsOk(items: seq<Item>, delimiter: char) {
    forall item <- items :: ItemOk(item, delimiter)
  }

  function Spelled(cell: Cell): string {
    match cell
    case Plain(text) => text
    case Quoted(text) => "\"" + Doubled(text) + "\""
  }

  function SpelledAll(items: seq<Item>): string {
    if items == [] then "" else Spelled(items[0].cell) + items[0].separator + SpelledAll(items[1..])
  }

  /** A row counts if some cell of it is more than white space. */
  function Counted(row: Row): seq<Row> {
    if exists cell <- row :: !Spaces(cell) then [row] else []
  }

  /** The rows of the items, after the cells of a row that has begun. */
  function RowsOf(row: Row, items: seq<Item>): seq<Row>
    decreases |items|
  {
    if items == [] then []
    else if IsLineEnd(items[0].separator) then Counted(row + [items[0].cell.text]) + RowsOf([], items[1..])
    else RowsOf(row + [items[0].cell.text], items[1..])
  }

  /** The cells of the row that the items leave unfinished. */
  function Unfinished(row: Row, items: seq<Item>): Row
    decreases |items|
  {
    if items == [] then row
    else if IsLineEnd(items[0].separator) then Unfinished([], items[1..])
    else Unfinished(row + [items[0].cell.text], items[1..])
  }

  /** All rows of a text that ends with the cell `last`. */
  function TableOf(items: seq<Item>, last: Cell): seq<Row> {
    RowsOf([], items) + Counted(Unfinished([], items) + [last.text])
  }

  // ----- what the tokenizer makes of it -----

  lemma BlankIff(row: Row)
    ensures Blank(row) <==> !(exists cell <- row :: !Spaces(cell))
  {
    forall cell <- row ensures Trim(cell) == "" <==> Spaces(cell) { TrimIsEmptyIff(cell); }
    hide Trim, Spaces;
  }

  lemma RowEndsAs(t: Tokens)
    ensures EndRow(t) == Tokens(t.rows + Counted(t.row + [t.field]), [], "", t.quoted, false)
  {
    BlankIff(t.row + [t.field]);
    hide Blank, Spaces;
    assert t.rows + [] == t.rows;
  }

  /** At the beginning of a cell. */
  predicate AtCell(t: Tokens) {
    t.field == "" && !t.quoted && !t.closed
  }

  /** The state behind a cell. */
  function Behind(t: Tokens, cell: Cell): Tokens {
    t.(field := cell.text, closed := cell.Quoted?)
  }

  lemma {:induction false} PlainIsRead(text: string, rest: string, delimiter: char, t: Tokens)
    requires PlainText(text, delimiter) && !t.quoted && !t.closed
    ensures Tokenize(text + rest, delimiter, t) == Tokenize(rest, delimiter, t.(field := t.field + text))
  {
    if text == "" {
      assert text + rest == rest && t.field + text == t.field;
    } else {
      assert text[0] in text && (text + rest)[1..] == text[1..] + rest;
      assert text == [text[0]] + text[1..] && t.field + [text[0]] + text[1..] == t.field + text;
      assert forall c <- text[1..] :: c in text;
      PlainIsRead(text[1..], rest, delimiter, t.(field := t.field + [text[0]]));
    }
  }

  /** Any cell is read as its text; behind a quoted one no quote may follow. */
  lemma CellIsReadAs(cell: Cell, rest: string, delimiter: char, t: Tokens)
    requires AtCell(t) && CellOk(cell, delimiter) && Boundary(rest)
    ensures Tokenize(Spelled(cell) + rest, delimiter, t) == Tokenize(rest, delimiter, Behind(t, cell))
  {
    assert "" + cell.text == cell.text;
    if cell.Plain? {
      hide Tokenize;
      PlainIsRead(cell.text, rest, delimiter, t);
    } else {
      var inner := Doubled(cell.text) + ['\"'] + rest;
      assert Spelled(cell) + rest == ['\"'] + inner;
      assert (['\"'] + inner)[1..] == inner;
      QuotedIsRead(cell.text, rest, delimiter, t.(quoted := true));
    }
  }

  lemma DelimiterIsRead(rest: string, delimiter: char, t: Tokens)
    requires !t.quoted && (delimiter == ',' || delimiter == ';')
    ensures Tokenize([delimiter] + rest, delimiter, t) ==
      Tokenize(rest, delimiter, t.(row := t.row + [t.field], field := "", closed := false))
  {
    assert ([delimiter] + rest)[1..] == rest;
  }

  /** A line end is read as such; a lone carriage return takes a line feed behind it along. */
  lemma LineEndIsRead(separator: string, rest: string, delimiter: char, t: Tokens)
    requires !t.quoted && (delimiter == ',' || delimiter == ';') && IsLineEnd(separator)
    ensures Tokenize(separator + rest, delimiter, t) ==
      if separator == "\r" && rest != "" && rest[0] == '\n' then Tokenize(rest[1..], delimiter, EndRow(t))
      else Tokenize(rest, delimiter, EndRow(t))
  {
    hide EndRow;
    var all := separator + rest;
    assert all[|separator|..] == rest;
    if separator == "\r" && rest != "" && rest[0] == '\n' { assert all[2..] == rest[1..]; }
  }

  /** What the items leave behind, before `tail` is read. */
  function Left(t: Tokens, items: seq<Item>): Tokens {
    Tokens(t.rows + RowsOf(t.row, items), Unfinished(t.row, items), "", false, false)
  }

  lemma SeparatorBegins(item: Item, rest: string, delimiter: char)
    requires ItemOk(item, delimiter) && (delimiter == ',' || delimiter == ';')
    ensures Boundary(item.separator + rest)
  {
  }

  /** Only an empty cell that a line feed ends begins with a line feed. */
  lemma LineFeedBegins(item: Item, more: string, delimiter: char)
    requires ItemOk(item, delimiter) && (delimiter == ',' || delimiter == ';')
    ensures var all := Spelled(item.cell) + (item.separator + more);
      && all != "" && (all[0] == '\n' ==> item == Item(Plain(""), "\n"))
      && (item == Item(Plain(""), "\n") ==> all[1..] == more)
  {
    hide Doubled;
    var all, text := Spelled(item.cell) + (item.separator + more), item.cell.text;
    if item.cell.Plain? && text != "" {
      assert all[0] == text[0] && text[0] in text;
    }
    if item == Item(Plain(""), "\n") { assert all == "\n" + more; }
  }

  lemma SpelledFirst(items: seq<Item>, tail: string)
    requires items != []
    ensures var item := items[0];
      SpelledAll(items) + tail == Spelled(item.cell) + (item.separator + (SpelledAll(items[1..]) + tail))
  {
    hide Spelled;
  }

  lemma LeadingLineFeed(items: seq<Item>, tail: string, delimiter: char)
    requires ItemsOk(items, delimiter) && (delimiter == ',' || delimiter == ';')
    requires tail == "" || tail[0] != '\n'
    requires var all := SpelledAll(items) + tail; all != "" && all[0] == '\n'
    ensures items != [] && items[0] == Item(Plain(""), "\n")
    ensures (SpelledAll(items) + tail)[1..] == SpelledAll(items[1..]) + tail
  {
    SpelledNothing();
    assert "" + tail == tail;
    hide SpelledAll, Special, Spelled;
    if items != [] {
      SpelledFirst(items, tail);
      LineFeedBegins(items[0], SpelledAll(items[1..]) + tail, delimiter);
    }
  }

  /** An empty row counts for nothing. */
  lemma EmptyRowIsNothing(row: Row, items: seq<Item>)
    requires items != [] && items[0] == Item(Plain(""), "\n")
    ensures RowsOf([], items) == RowsOf([], items[1..]) && Unfinished(row, items) == Unfinished([], items[1..])
  {
    assert [] + [""] == [""];
  }

  /** The first item is read as its cell; its separator is next. */
  lemma FirstCellIsRead(items: seq<Item>, tail: string, delimiter: char, t: Tokens)
    requires items != [] && AtCell(t) && ItemsOk(items, delimiter) && (delimiter == ',' || delimiter == ';')
    ensures ItemOk(items[0], delimiter) && ItemsOk(items[1..], delimiter)
    ensures Tokenize(SpelledAll(items) + tail, delimiter, t) ==
      Tokenize(items[0].separator + (SpelledAll(items[1..]) + tail), delimiter, Behind(t, items[0].cell))
  {
    var item, rest := items[0], SpelledAll(items[1..]) + tail;
    assert ItemOk(item, delimiter);
    assert forall i <- items[1..] :: i in items;
    SpelledFirst(items, tail);
    SeparatorBegins(item, rest, delimiter);
    hide Tokenize, SpelledAll, ItemOk;
    assert CellOk(item.cell, delimiter) by { CellIsOk(item, delimiter); }
    CellIsReadAs(item.cell, item.separator + rest, delimiter, t);
  }

  lemma CellIsOk(item: Item, delimiter: char)
    requires ItemOk(item, delimiter)
    ensures CellOk(item.cell, delimiter)
  {
  }

  /** A row that ends is put to the others. */
  lemma RowIsPut(items: seq<Item>, t: Tokens)
    requires items != [] && AtCell(t) && IsLineEnd(items[0].separator)
    ensures var v := EndRow(Behind(t, items[0].cell)); AtCell(v) && Left(v, items[1..]) == Left(t, items)
  {
    var u := Behind(t, items[0].cell);
    RowEndsAs(u);
    hide EndRow, Counted, IsLineEnd;
    assert EndRow(u).rows + RowsOf([], items[1..]) == t.rows + RowsOf(t.row, items);
  }

  /** A cell that ends its row: what is left to read, with the row put to the others. */
  lemma RowEndIsRead(items: seq<Item>, tail: string, delimiter: char, t: Tokens) returns (later: seq<Item>, v: Tokens)
    requires items != [] && items[0].separator != [delimiter]
    requires AtCell(t) && ItemsOk(items, delimiter) && (delimiter == ',' || delimiter == ';')
    requires tail == "" || tail[0] != '\n'
    ensures AtCell(v) && ItemsOk(later, delimiter) && |later| < |items| && Left(v, later) == Left(t, items)
    ensures Tokenize(SpelledAll(items) + tail, delimiter, t) == Tokenize(SpelledAll(later) + tail, delimiter, v)
  {
    var item, rest := items[0], SpelledAll(items[1..]) + tail;
    FirstCellIsRead(items, tail, delimiter, t);
    hide Tokenize, EndRow, Counted, RowsOf, Unfinished, SpelledAll, IsLineEnd;
    LineEndIsRead(item.separator, rest, delimiter, Behind(t, item.cell));
    RowIsPut(items, t);
    v := EndRow(Behind(t, item.cell));
    later := items[1..];
    if item.separator == "\r" && rest != "" && rest[0] == '\n' {
      LeadingLineFeed(later, tail, delimiter);
      EmptyRowIsPut(v, later);
      assert forall i <- later[1..] :: i in items;
      later := later[1..];
    }
  }

  lemma EmptyRowIsPut(t: Tokens, items: seq<Item>)
    requires items != [] && items[0] == Item(Plain(""), "\n") && t.row == [] && AtCell(t)
    ensures Left(t, items) == Left(t, items[1..])
  {
    EmptyRowIsNothing([], items);
  }

  /** The items are read one by one, in quotes or not, whatever line ends they use. */
  lemma {:induction false} ItemsAreRead(items: seq<Item>, tail: string, delimiter: char, t: Tokens)
    requires AtCell(t) && ItemsOk(items, delimiter) && (delimiter == ',' || delimiter == ';')
    requires tail == "" || tail[0] != '\n'
    ensures Tokenize(SpelledAll(items) + tail, delimiter, t) == Tokenize(tail, delimiter, Left(t, items))
    decreases |items|
  {
    hide Tokenize, EndRow, Counted;
    if items == [] {
      assert SpelledAll(items) + tail == tail && t.rows + [] == t.rows;
      assert Left(t, items) == t;
    } else if items[0].separator == [delimiter] {
      FirstCellIsRead(items, tail, delimiter, t);
      hide SpelledAll, ItemOk;
      var u := Behind(t, items[0].cell);
      DelimiterIsRead(SpelledAll(items[1..]) + tail, delimiter, u);
      ItemsAreRead(items[1..], tail, delimiter, u.(row := u.row + [u.field], field := "", closed := false));
    } else {
      hide Left, SpelledAll, ItemsOk;
      var later, v := RowEndIsRead(items, tail, delimiter, t);
      ItemsAreRead(later, tail, delimiter, v);
    }
  }

  // ----- how a text may end -----

  lemma {:induction false} OpenIsRead(body: string, delimiter: char, t: Tokens)
    requires t.quoted
    ensures Tokenize(Doubled(body), delimiter, t) == Error(OpenQuote)
  {
    if body == "" {
    } else {
      var all := Doubled(body);
      if body[0] == '\"' { assert all[2..] == Doubled(body[1..]); } else { assert all[1..] == Doubled(body[1..]); }
      OpenIsRead(body[1..], delimiter, t.(field := t.field + [body[0]]));
    }
  }

  /** The last cell of a text ends its row. */
  lemma LastCellIsRead(last: Cell, delimiter: char, t: Tokens)
    requires AtCell(t) && CellOk(last, delimiter)
    ensures Tokenize(Spelled(last), delimiter, t) == Ok(t.rows + Counted(t.row + [last.text]))
  {
    assert Spelled(last) + "" == Spelled(last);
    CellIsReadAs(last, "", delimiter, t);
    RowEndsAs(Behind(t, last));
    hide EndRow, Counted;
  }

  lemma OpenTailIsRead(body: string, delimiter: char, t: Tokens)
    requires AtCell(t)
    ensures Tokenize("\"" + Doubled(body), delimiter, t) == Error(OpenQuote)
  {
    assert ("\"" + Doubled(body))[1..] == Doubled(body);
    OpenIsRead(body, delimiter, t.(quoted := true));
  }

  lemma InsideTailIsRead(text: string, rest: string, delimiter: char, t: Tokens)
    requires AtCell(t) && text != "" && PlainText(text, delimiter)
    ensures Tokenize(text + ("\"" + rest), delimiter, t) == Error(BadQuotes)
  {
    PlainIsRead(text, "\"" + rest, delimiter, t);
  }

  lemma BehindTailIsRead(body: string, c: char, rest: string, delimiter: char, t: Tokens)
    requires AtCell(t) && !Special(c, delimiter)
    ensures Tokenize(Spelled(Quoted(body)) + ([c] + rest), delimiter, t) == Error(TextAfterQuotes)
  {
    CellIsReadAs(Quoted(body), [c] + rest, delimiter, t);
  }

  // ----- every text has one of four forms -----

  /** A table: items, and a last cell. */
  predicate IsTable(text: string, delimiter: char, items: seq<Item>, last: Cell) {
    ItemsOk(items, delimiter) && CellOk(last, delimiter) && text == SpelledAll(items) + Spelled(last)
  }

  /** The last cell is opened by a quote that nothing closes. */
  predicate LeavesOpen(text: string, delimiter: char, items: seq<Item>, body: string) {
    ItemsOk(items, delimiter) && text == SpelledAll(items) + ("\"" + Doubled(body))
  }

  /** A quote stands inside a cell that has begun without one. */
  predicate QuotesInside(text: string, delimiter: char, items: seq<Item>, begun: string, rest: string) {
    && ItemsOk(items, delimiter) && begun != "" && PlainText(begun, delimiter)
    && text == SpelledAll(items) + (begun + ("\"" + rest))
  }

  /** A quoted cell is followed by something other than a quote, a delimiter or a line end. */
  predicate GoesOnBehind(text: string, delimiter: char, items: seq<Item>, body: string, c: char, rest: string) {
    && ItemsOk(items, delimiter) && !Special(c, delimiter)
    && text == SpelledAll(items) + (Spelled(Quoted(body)) + ([c] + rest))
  }

  /** The four ways a text can end, behind its items. */
  datatype Tail = Last(cell: Cell) | Open(body: string) | Inside(begun: string, rest: string)
                | More(body: string, c: char, rest: string)

  predicate HasForm(text: string, delimiter: char, items: seq<Item>, tail: Tail) {
    match tail
    case Last(cell) => IsTable(text, delimiter, items, cell)
    case Open(body) => LeavesOpen(text, delimiter, items, body)
    case Inside(begun, rest) => QuotesInside(text, delimiter, items, begun, rest)
    case More(body, c, rest) => GoesOnBehind(text, delimiter, items, body, c, rest)
  }

  function OutcomeOf(items: seq<Item>, tail: Tail): Parsed<seq<Row>> {
    match tail
    case Last(cell) => Ok(TableOf(items, cell))
    case Open(_) => Error(OpenQuote)
    case Inside(_, _) => Error(BadQuotes)
    case More(_, _, _) => Error(TextAfterQuotes)
  }

  lemma FormIsRead(text: string, delimiter: char, items: seq<Item>, tail: Tail)
    requires HasForm(text, delimiter, items, tail) && (delimiter == ',' || delimiter == ';')
    ensures Tokenize(text, delimiter, NOTHING) == OutcomeOf(items, tail)
  {
    hide Tokenize, SpelledAll, RowsOf, Unfinished, Counted, ItemsOk, Special, Doubled;
    var t := Left(NOTHING, items);
    assert t.rows == RowsOf([], items);
    match tail
    case Last(cell) =>
      LastCellBegins(cell, delimiter);
      ItemsAreRead(items, Spelled(cell), delimiter, NOTHING);
      LastCellIsRead(cell, delimiter, t);
    case Open(body) =>
      ItemsAreRead(items, "\"" + Doubled(body), delimiter, NOTHING);
      OpenTailIsRead(body, delimiter, t);
    case Inside(begun, rest) =>
      LastCellBegins(Plain(begun), delimiter);
      ItemsAreRead(items, begun + ("\"" + rest), delimiter, NOTHING);
      InsideTailIsRead(begun, rest, delimiter, t);
    case More(body, c, rest) =>
      ItemsAreRead(items, Spelled(Quoted(body)) + ([c] + rest), delimiter, NOTHING);
      BehindTailIsRead(body, c, rest, delimiter, t);
  }

  lemma LastCellBegins(cell: Cell, delimiter: char)
    requires CellOk(cell, delimiter)
    ensures Spelled(cell) == "" || Spelled(cell)[0] != '\n'
  {
    if cell.Plain? && cell.text != "" { assert cell.text[0] in cell.text; }
  }

  lemma {:induction false} ScanPlain(text: string, delimiter: char) returns (begun: string, rest: string)
    ensures text == begun + rest && PlainText(begun, delimiter) && (rest == "" || Special(rest[0], delimiter))
  {
    hide Special;
    if text == "" || Special(text[0], delimiter) {
      begun, rest := "", text;
    } else {
      begun, rest := ScanPlain(text[1..], delimiter);
      assert text == [text[0]] + text[1..];
      begun := [text[0]] + begun;
    }
  }

  lemma {:induction false} ScanQuoted(text: string) returns (body: string, closed: bool, rest: string)
    ensures if closed then text == Doubled(body) + ("\"" + rest) && Boundary(rest) else text == Doubled(body)
    decreases |text|
  {
    if text == "" {
      body, closed, rest := "", false, "";
    } else if text[0] != '\"' {
      body, closed, rest := ScanQuoted(text[1..]);
      assert text == [text[0]] + text[1..];
      body := [text[0]] + body;
      assert body[1..] + [] == body[1..] && Doubled(body) == [text[0]] + Doubled(body[1..]);
    } else if |text| > 1 && text[1] == '\"' {
      body, closed, rest := ScanQuoted(text[2..]);
      assert text == ['\"', '\"'] + text[2..];
      body := ['\"'] + body;
      assert Doubled(body) == ['\"', '\"'] + Doubled(body[1..]);
    } else {
      body, closed, rest := "", true, text[1..];
      assert text == "" + ("\"" + text[1..]);
    }
  }

  /** The length of the separator at the head of a text, if there is one. */
  function SeparatorAt(text: string, delimiter: char): (n: nat)
    ensures n <= |text|
  {
    if text == "" then 0
    else if text[0] == '\r' && |text| > 1 && text[1] == '\n' then 2
    else if text[0] == delimiter || text[0] == '\n' || text[0] == '\r' then 1
    else 0
  }

  lemma SeparatorIsOk(text: string, cell: Cell, delimiter: char)
    requires SeparatorAt(text, delimiter) > 0 && CellOk(cell, delimiter) && (delimiter == ',' || delimiter == ';')
    ensures var n := SeparatorAt(text, delimiter); ItemOk(Item(cell, text[..n]), delimiter)
  {
    var n := SeparatorAt(text, delimiter);
    if n == 2 { assert text[..2] == "\r\n"; } else { assert text[..1] == [text[0]]; }
  }

  /** One more item in front of a text of known form. */
  lemma FormGrows(text: string, item: Item, more: string, delimiter: char, items: seq<Item>, tail: Tail)
    requires HasForm(more, delimiter, items, tail) && ItemOk(item, delimiter)
    requires text == Spelled(item.cell) + item.separator + more
    ensures HasForm(text, delimiter, [item] + items, tail)
  {
    hide ItemOk, Spelled, Special, Doubled;
    assert ([item] + items)[1..] == items;
    assert SpelledAll([item] + items) == Spelled(item.cell) + item.separator + SpelledAll(items);
    hide SpelledAll;
  }

  lemma SpelledNothing()
    ensures SpelledAll([]) == ""
  {
  }

  /** The first cell of a text, unless the text stops making sense in it. */
  lemma ScanCell(text: string, delimiter: char) returns (cell: Cell, rest: string, mistake: Option<Tail>)
    requires delimiter == ',' || delimiter == ';'
    ensures match mistake
      case Some(tail) => HasForm(text, delimiter, [], tail)
      case None => CellOk(cell, delimiter) && text == Spelled(cell) + rest && Boundary(rest)
    ensures mistake == None && cell.Plain? ==> rest == "" || Special(rest[0], delimiter)
  {
    hide Doubled, Special;
    SpelledNothing();
    hide SpelledAll;
    mistake := None;
    if text != "" && text[0] == '\"' {
      var body, closed;
      body, closed, rest := ScanQuoted(text[1..]);
      assert text == "\"" + text[1..];
      cell := Quoted(body);
      if closed {
        assert text == Spelled(cell) + rest;
      } else {
        assert text == "" + ("\"" + Doubled(body));
        mistake := Some(Open(body));
      }
    } else {
      var begun;
      begun, rest := ScanPlain(text, delimiter);
      cell := Plain(begun);
      if rest != "" && rest[0] == '\"' {
        assert rest == "\"" + rest[1..];
        assert text == "" + (begun + ("\"" + rest[1..]));
        assert begun != "";
        mistake := Some(Inside(begun, rest[1..]));
      }
    }
  }

  /** What follows the first cell decides, and then the rest of the text. */
  lemma {:induction false} EveryTextHasAForm(text: string, delimiter: char) returns (items: seq<Item>, tail: Tail)
    requires delimiter == ',' || delimiter == ';'
    ensures HasForm(text, delimiter, items, tail)
    decreases |text|
  {
    hide SpelledAll, Doubled, Spelled, HasForm;
    items := [];
    var cell, rest, mistake := ScanCell(text, delimiter);
    var n := SeparatorAt(rest, delimiter);
    if mistake.Some? {
      tail := mistake.value;
    } else if rest == "" {
      tail := Last(cell);
      EndForms(text, cell, rest, delimiter);
    } else if n > 0 {
      hide SeparatorAt;
      SeparatorIsOk(rest, cell, delimiter);
      items, tail := EveryTextHasAForm(rest[n..], delimiter);
      assert rest == rest[..n] + rest[n..];
      assert text == Spelled(cell) + rest[..n] + rest[n..];
      FormGrows(text, Item(cell, rest[..n]), rest[n..], delimiter, items, tail);
      items := [Item(cell, rest[..n])] + items;
    } else {
      tail := More(cell.text, rest[0], rest[1..]);
      EndForms(text, cell, rest, delimiter);
    }
  }

  lemma EndForms(text: string, cell: Cell, rest: string, delimiter: char)
    requires CellOk(cell, delimiter) && text == Spelled(cell) + rest
    ensures rest == "" ==> HasForm(text, delimiter, [], Last(cell))
    ensures rest != "" && cell.Quoted? && !Special(rest[0], delimiter) ==>
      HasForm(text, delimiter, [], More(cell.text, rest[0], rest[1..]))
  {
    hide Doubled, Special;
    SpelledNothing();
    hide SpelledAll;
    assert rest == "" ==> text == "" + Spelled(cell);
    assert rest != "" ==> rest == [rest[0]] + rest[1..] && text == "" + (Spelled(cell) + ([rest[0]] + rest[1..]));
  }

  // ----- exactly what is read, and what is refused -----

  /** A text is read as a table if and only if it is spelled like one; and refused exactly for these three mistakes. */
  lemma TextIsReadIff(text: string, delimiter: char, rows: seq<Row>)
    requires delimiter == ',' || delimiter == ';'
    ensures Tokenize(text, delimiter, NOTHING) == Ok(rows) <==>
      exists items, last | IsTable(text, delimiter, items, last) :: rows == TableOf(items, last)
    ensures Tokenize(text, delimiter, NOTHING) == Error(OpenQuote) <==>
      exists items, body :: LeavesOpen(text, delimiter, items, body)
    ensures Tokenize(text, delimiter, NOTHING) == Error(BadQuotes) <==>
      exists items, begun, rest :: QuotesInside(text, delimiter, items, begun, rest)
    ensures Tokenize(text, delimiter, NOTHING) == Error(TextAfterQuotes) <==>
      exists items, body, c, rest :: GoesOnBehind(text, delimiter, items, body, c, rest)
  {
    var items, tail := EveryTextHasAForm(text, delimiter);
    FormIsRead(text, delimiter, items, tail);
    hide Tokenize, IsTable, LeavesOpen, QuotesInside, GoesOnBehind, TableOf;
    forall xs, x | HasForm(text, delimiter, xs, x) ensures Tokenize(text, delimiter, NOTHING) == OutcomeOf(xs, x) {
      FormIsRead(text, delimiter, xs, x);
    }
    forall xs, last | IsTable(text, delimiter, xs, last)
      ensures Tokenize(text, delimiter, NOTHING) == Ok(TableOf(xs, last))
    {
      assert HasForm(text, delimiter, xs, Last(last));
    }
    forall xs, body | LeavesOpen(text, delimiter, xs, body)
      ensures Tokenize(text, delimiter, NOTHING) == Error(OpenQuote)
    {
      assert HasForm(text, delimiter, xs, Open(body));
    }
    forall xs, begun, rest | QuotesInside(text, delimiter, xs, begun, rest)
      ensures Tokenize(text, delimiter, NOTHING) == Error(BadQuotes)
    {
      assert HasForm(text, delimiter, xs, Inside(begun, rest));
    }
    forall xs, body, c, rest | GoesOnBehind(text, delimiter, xs, body, c, rest)
      ensures Tokenize(text, delimiter, NOTHING) == Error(TextAfterQuotes)
    {
      assert HasForm(text, delimiter, xs, More(body, c, rest));
    }
  }

  // ----- files -----

  /** A semicolon stands in front of any line feed. */
  ghost predicate SemicolonFirst(text: string) {
    exists i | 0 <= i < |text| :: text[i] == ';' && forall j | 0 <= j < i :: text[j] != '\n'
  }

  lemma {:induction false} FirstLineHolds(text: string)
    ensures ';' in FirstLine(text) <==> SemicolonFirst(text)
  {
    if text == "" || text[0] == '\n' {
    } else {
      var rest := text[1..];
      FirstLineHolds(rest);
      if SemicolonFirst(rest) {
        var i :| 0 <= i < |rest| && rest[i] == ';' && forall j | 0 <= j < i :: rest[j] != '\n';
        assert text[i + 1] == ';';
        forall j | 0 <= j < i + 1 ensures text[j] != '\n' { if j > 0 { assert text[j] == rest[j - 1]; } }
      }
      if SemicolonFirst(text) && text[0] != ';' {
        var i :| 0 <= i < |text| && text[i] == ';' && forall j | 0 <= j < i :: text[j] != '\n';
        assert rest[i - 1] == ';';
        forall j | 0 <= j < i - 1 ensures rest[j] != '\n' { assert rest[j] == text[j + 1]; }
      }
    }
  }

  /** The file is the text, with or without a byte order mark in front. */
  predicate FileOf(input: string, text: string) {
    input == ['\U{FEFF}'] + text || (input == text && (text == "" || text[0] != '\U{FEFF}'))
  }

  /** What becomes of a file: too large, or read by the grammar of its delimiter. */
  lemma FileIsReadAs(input: string, text: string)
    requires FileOf(input, text)
    ensures ReadRows(input) ==
      if |input| > 100000 then Error(TooLarge)
      else Tokenize(text, if SemicolonFirst(text) then ';' else ',', NOTHING)
  {
    FirstLineHolds(text);
    hide Tokenize, FirstLine, SemicolonFirst;
    if input == [BOM] + text { assert input[1..] == text; }
  }

  // ----- the names in a file -----

  /** A cell of the header that names the column of names. */
  predicate NamesColumn(row: Row, i: nat, casing: Casing) {
    i < |row| && casing.lower(Trim(row[i])) == "nome"
  }

  /** The only such cell. */
  ghost predicate OnlyColumn(row: Row, i: nat, casing: Casing) {
    NamesColumn(row, i, casing) && forall j: nat | NamesColumn(row, j, casing) :: j == i
  }

  lemma {:induction false} CountsColumns(row: Row, casing: Casing)
    ensures Occurrences(row, casing.lower) == 0 <==> forall i: nat :: !NamesColumn(row, i, casing)
    ensures Occurrences(row, casing.lower) == 1 <==> exists i: nat :: OnlyColumn(row, i, casing)
    ensures forall i: nat | OnlyColumn(row, i, casing) :: HeaderIndex(row, casing.lower) == i
  {
    hide Trim;
    if row == [] {
    } else {
      var rest := row[1..];
      CountsColumns(rest, casing);
      assert row == [row[0]] + rest;
      assert forall i: nat :: NamesColumn(rest, i, casing) <==> NamesColumn(row, i + 1, casing);
      assert forall i: nat | i > 0 :: NamesColumn(row, i, casing) <==> NamesColumn(rest, i - 1, casing);
      FirstColumn(row, casing);
    }
  }

  /** The first cell is the only one, or stands aside. */
  lemma FirstColumn(row: Row, casing: Casing)
    requires row != []
    requires forall i: nat :: NamesColumn(row[1..], i, casing) <==> NamesColumn(row, i + 1, casing)
    requires forall i: nat | i > 0 :: NamesColumn(row, i, casing) <==> NamesColumn(row[1..], i - 1, casing)
    ensures NamesColumn(row, 0, casing) ==>
      (OnlyColumn(row, 0, casing) <==> forall i: nat :: !NamesColumn(row[1..], i, casing))
    ensures !NamesColumn(row, 0, casing) ==>
      forall i: nat :: OnlyColumn(row, i + 1, casing) <==> OnlyColumn(row[1..], i, casing)
    ensures (exists i: nat :: OnlyColumn(row, i, casing)) <==>
      if NamesColumn(row, 0, casing) then OnlyColumn(row, 0, casing)
      else exists i: nat :: OnlyColumn(row[1..], i, casing)
    ensures forall i: nat | OnlyColumn(row, i, casing) && !NamesColumn(row, 0, casing) ::
      i > 0 && OnlyColumn(row[1..], i - 1, casing)
  {
    hide NamesColumn;
    if !NamesColumn(row, 0, casing) {
      forall i: nat | OnlyColumn(row[1..], i, casing) ensures OnlyColumn(row, i + 1, casing) {}
      forall i: nat | OnlyColumn(row, i, casing) ensures i > 0 && OnlyColumn(row[1..], i - 1, casing) {
        assert i != 0;
        assert NamesColumn(row[1..], i - 1, casing);
      }
    }
  }

  /** The first name that is not one of 1 to 120 characters without control characters, or repeats an earlier one. */
  ghost predicate Objects(names: seq<string>, k: nat, casing: Casing, e: CsvError) {
    && k < |names|
    && (var legal := 1 <= |names[k]| <= 120 && forall c <- names[k] :: c > '\U{001F}';
        var repeated := exists j | 0 <= j < k :: casing.localeLower(names[j]) == casing.localeLower(names[k]);
        if !legal then e == BadName else repeated && e == DuplicateName)
  }

  /** Nothing is wrong with a name. */
  ghost predicate Passes(names: seq<string>, k: nat, casing: Casing) {
    forall e :: !Objects(names, k, casing, e)
  }

  ghost predicate AllPass(names: seq<string>, n: nat, casing: Casing) {
    forall k: nat | k < n :: Passes(names, k, casing)
  }

  ghost predicate FirstObjects(names: seq<string>, casing: Casing, e: CsvError) {
    exists k: nat :: Objects(names, k, casing, e) && AllPass(names, k, casing)
  }

  lemma {:induction false} FirstObjection(names: seq<string>, casing: Casing, k: nat)
    requires k <= |names|
    ensures match NamesError(names, casing, k)
      case None => forall i | k <= i < |names| :: Passes(names, i, casing)
      case Some(e) =>
        exists i | k <= i < |names| :: Objects(names, i, casing, e) && forall j | k <= j < i :: Passes(names, j, casing)
    decreases |names| - k
  {
    if k < |names| {
      NamePasses(names, casing, k);
      hide Objects, Passes;
      FirstObjection(names, casing, k + 1);
    }
  }

  lemma NamePasses(names: seq<string>, casing: Casing, k: nat)
    requires k < |names|
    ensures NamesError(names, casing, k) ==
      if Objects(names, k, casing, BadName) then Some(BadName)
      else if Objects(names, k, casing, DuplicateName) then Some(DuplicateName)
      else NamesError(names, casing, k + 1)
    ensures Passes(names, k, casing) <==>
      !Objects(names, k, casing, BadName) && !Objects(names, k, casing, DuplicateName)
  {
    if e :| Objects(names, k, casing, e) { assert e == BadName || e == DuplicateName; }
  }

  /** The names of a table: the trimmed cells of one column below the header, nothing where a row is too short. */
  ghost predicate NamesIn(rows: seq<Row>, i: nat, names: seq<string>) {
    && |names| == |rows| - 1
    && forall k | 0 <= k < |names| :: names[k] == if i < |rows[k + 1]| then Trim(rows[k + 1][i]) else ""
  }

  /** All names if they are 1 to 100 and nothing is wrong with any of them, or else what is. */
  ghost predicate ImportedAs(r: Parsed<seq<string>>, names: seq<string>, casing: Casing) {
    match r
    case Ok(result) => result == names && 1 <= |names| <= 100 && AllPass(names, |names|, casing)
    case Error(e) =>
      if e == RowCount then |names| == 0 || |names| > 100 else 1 <= |names| <= 100 && FirstObjects(names, casing, e)
  }

  /**
   What is imported: a table needs exactly one column of names and 1 to 100 rows below its header; then its names are
   returned, or the first objection to one of them.
   */
  lemma NamesAreImported(rows: seq<Row>, casing: Casing)
    ensures NamesOf(rows, casing) == Error(HeaderError) <==>
      rows == [] || forall i: nat :: !OnlyColumn(rows[0], i, casing)
    ensures forall i: nat, names | rows != [] && OnlyColumn(rows[0], i, casing) && NamesIn(rows, i, names) ::
      ImportedAs(NamesOf(rows, casing), names, casing)
  {
    var headers := if rows == [] then [] else rows[0];
    CountsColumns(headers, casing);
    hide NamesError, Objects, Trim, Occurrences, HeaderIndex, NamesColumn;
    if rows == [] {
      assert forall i: nat :: !OnlyColumn(headers, i, casing) by { NoHeader(casing); }
    } else {
      forall i: nat, names | OnlyColumn(rows[0], i, casing) && NamesIn(rows, i, names)
        ensures names == NamesAt(rows[1..], HeaderIndex(headers, casing.lower))
      {
        forall k | 0 <= k < |names| ensures names[k] == NamesAt(rows[1..], i)[k] {}
      }
      FirstObjection(NamesAt(rows[1..], HeaderIndex(headers, casing.lower)), casing, 0);
      ObjectionsAre(NamesAt(rows[1..], HeaderIndex(headers, casing.lower)), casing);
    }
  }

  lemma NoHeader(casing: Casing)
    ensures forall i: nat :: !OnlyColumn([], i, casing)
  {
  }

  lemma ObjectionsAre(names: seq<string>, casing: Casing)
    ensures forall k: nat, e | Objects(names, k, casing, e) :: k < |names| && (e == BadName || e == DuplicateName)
  {
  }

  // ----- what is written -----

  /** The first character that is no white space would start a formula. */
  ghost predicate BeginsFormula(text: string) {
    exists i | 0 <= i < |text| ::
      (text[i] == '=' || text[i] == '+' || text[i] == '@' || text[i] == '-') && forall j | 0 <= j < i ::
        IsSpace(text[j])
  }

  /** A cell that would be a formula is written behind an apostrophe, any other as it is; so none is a formula. */
  lemma GuardLaw(text: string)
    ensures Guarded(text) == if BeginsFormula(text) then "'" + text else text
    ensures !BeginsFormula(Guarded(text))
  {
    var n := TrimStartLaw(text);
    assert !IsSpace('=') && !IsSpace('+') && !IsSpace('@') && !IsSpace('-') && !IsSpace('\'');
    hide IsSpace;
    assert ("'" + text)[0] == '\'';
  }
}
