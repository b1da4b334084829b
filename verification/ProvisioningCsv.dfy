/**
 The CSV reader and writer of apps/web/src/broker/import.ts, in the quoting of section 2 of RFC 4180: what the
 writer puts out, the reader takes back in.
 */
module ProvisioningCsv {
  import opened Wrappers
  import opened Json

  datatype CsvError =
    | TooLarge | BadQuotes | TextAfterQuotes | OpenQuote
    | HeaderError | RowCount | BadName | DuplicateName

  datatype Parsed<T> = Ok(value: T) | Error(error: CsvError)

  type Row = seq<string>

  const MAX_INPUT := 100000
  const BOM: char := '\U{FEFF}'

  // ----- the tokenizer -----

  datatype Tokens = Tokens(rows: seq<Row>, row: Row, field: string, quoted: bool, closed: bool)

  const NOTHING := Tokens([], [], "", false, false)

  predicate Blank(row: Row) {
    forall cell <- row :: Trim(cell) == ""
  }

  function EndRow(t: Tokens): Tokens {
    var row := t.row + [t.field];
    Tokens(if Blank(row) then t.rows else t.rows + [row], [], "", t.quoted, false)
  }

  /** What remains of the text is read from state `t`; the end of the text ends the last row. */
  function Tokenize(rest: string, delimiter: char, t: Tokens): Parsed<seq<Row>>
    decreases |rest|
  {
    if t.quoted then
      if rest == "" then Error(OpenQuote)
      else if rest[0] != '\"' then Tokenize(rest[1..], delimiter, t.(field := t.field + [rest[0]]))
      else if |rest| > 1 && rest[1] == '\"' then Tokenize(rest[2..], delimiter, t.(field := t.field + ['\"']))
      else Tokenize(rest[1..], delimiter, t.(quoted := false, closed := true))
    else if rest == "" then Ok(EndRow(t).rows)
    else if rest[0] == '\"' then
      if t.field != "" || t.closed then Error(BadQuotes) else Tokenize(rest[1..], delimiter, t.(quoted := true))
    else if rest[0] == delimiter then
      Tokenize(rest[1..], delimiter, t.(row := t.row + [t.field], field := "", closed := false))
    else if rest[0] == '\n' || rest[0] == '\r' then
      var taken := if rest[0] == '\r' && |rest| > 1 && rest[1] == '\n' then 2 else 1;
      Tokenize(rest[taken..], delimiter, EndRow(t))
    else if t.closed then Error(TextAfterQuotes)
    else Tokenize(rest[1..], delimiter, t.(field := t.field + [rest[0]]))
  }

  /** The first physical line, up to a line feed. */
  function FirstLine(text: string): string {
    if text == "" || text[0] == '\n' then "" else [text[0]] + FirstLine(text[1..])
  }

  function Delimiter(text: string): char {
    if ';' in FirstLine(text) then ';' else ','
  }

  function WithoutBom(input: string): string {
    if input != "" && input[0] == BOM then input[1..] else input
  }

  function ReadRows(input: string): Parsed<seq<Row>> {
    if |input| > MAX_INPUT then Error(TooLarge)
    else
      var text := WithoutBom(input);
      Tokenize(text, Delimiter(text), NOTHING)
  }

  /** The loop over the characters, one virtual line feed past the end included. */
  method TokenizeLoop(text: string, delimiter: char) returns (r: Parsed<seq<Row>>)
    requires delimiter == ',' || delimiter == ';'
    ensures r == Tokenize(text, delimiter, NOTHING)
  {
    hide Blank;
    var rows: seq<Row>, row: Row, field, quoted, closed := [], [], "", false, false;
    var i := 0;
    while i <= |text|
      invariant 0 <= i <= |text| + 1
      invariant i <= |text| ==>
        Tokenize(text[i..], delimiter, Tokens(rows, row, field, quoted, closed)) == Tokenize(text, delimiter, NOTHING)
      invariant i > |text| ==>
        Tokenize(text, delimiter, NOTHING) == if quoted then Error(OpenQuote) else Ok(rows)
    {
      var c := if i < |text| then text[i] else '\n';
      ghost var t := Tokens(rows, row, field, quoted, closed);
      ghost var rest := text[i..];
      assert i < |text| ==> rest[0] == c && rest[1..] == text[i + 1..];
      assert i + 1 < |text| ==> rest[1] == text[i + 1] && rest[2..] == text[i + 2..];
      if quoted {
        if c != '\"' {
          field := field + [c];
        } else if i + 1 < |text| && text[i + 1] == '\"' {
          field := field + ['\"'];
          i := i + 1;
        } else {
          quoted, closed := false, true;
        }
      } else if c == '\"' {
        if field != "" || closed { return Error(BadQuotes); }
        quoted := true;
      } else if c == delimiter {
        row, field, closed := row + [field], "", false;
      } else if c == '\n' || c == '\r' {
        if c == '\r' && i + 1 < |text| && text[i + 1] == '\n' { i := i + 1; }
        row := row + [field];
        if !Blank(row) { rows := rows + [row]; }
        row, field, closed := [], "", false;
      } else {
        if closed { return Error(TextAfterQuotes); }
        field := field + [c];
      }
      i := i + 1;
    }
    return if quoted then Error(OpenQuote) else Ok(rows);
  }

  // ----- the writer -----

  /** `/^[\s]*[=+@-]/`. */
  predicate Formula(text: string) {
    var t := TrimStart(text);
    t != "" && t[0] in {'=', '+', '@', '-'}
  }

  function Guarded(text: string): string {
    if Formula(text) then ['\''] + text else text
  }

  function Doubled(text: string): string {
    if text == "" then "" else (if text[0] == '\"' then ['\"', '\"'] else [text[0]]) + Doubled(text[1..])
  }

  function CsvCell(text: string): string {
    ['\"'] + Doubled(Guarded(text)) + ['\"']
  }

  function CsvRow(cells: Row): string {
    if cells == [] then ""
    else if |cells| == 1 then CsvCell(cells[0])
    else CsvCell(cells[0]) + "," + CsvRow(cells[1..])
  }

  function CsvBody(rows: seq<Row>): string {
    if rows == [] then ""
    else if |rows| == 1 then CsvRow(rows[0])
    else CsvRow(rows[0]) + "\r\n" + CsvBody(rows[1..])
  }

  function ToCsv(rows: seq<Row>): string {
    [BOM] + CsvBody(rows)
  }

  // ----- what the reader makes of it -----

  function GuardedRow(cells: Row): (r: Row)
    ensures |r| == |cells| && forall i | 0 <= i < |cells| :: r[i] == Guarded(cells[i])
  {
    seq(|cells|, i requires 0 <= i < |cells| => Guarded(cells[i]))
  }

  /** The rows after the formula guard, blank ones dropped. */
  function KeptRows(rows: seq<Row>): seq<Row> {
    if rows == [] then []
    else (if Blank(GuardedRow(rows[0])) then [] else [GuardedRow(rows[0])]) + KeptRows(rows[1..])
  }

  predicate Wide(rows: seq<Row>) {
    exists row <- rows :: |row| >= 2
  }

  predicate Boundary(rest: string) {
    rest == "" || rest[0] != '\"'
  }

  lemma {:induction false} QuotedIsRead(text: string, rest: string, delimiter: char, t: Tokens)
    requires t.quoted && Boundary(rest)
    ensures Tokenize(Doubled(text) + ['\"'] + rest, delimiter, t) ==
      Tokenize(rest, delimiter, t.(field := t.field + text, quoted := false, closed := true))
  {
    var all := Doubled(text) + ['\"'] + rest;
    if text == "" {
      assert all[1..] == rest;
      assert t.field + text == t.field;
    } else {
      var more := Doubled(text[1..]) + ['\"'] + rest;
      assert text == [text[0]] + text[1..];
      assert t.field + text == t.field + [text[0]] + text[1..];
      if text[0] == '\"' { assert all[2..] == more; } else { assert all[1..] == more; }
      QuotedIsRead(text[1..], rest, delimiter, t.(field := t.field + [text[0]]));
    }
  }

  lemma CellIsRead(text: string, rest: string, delimiter: char, t: Tokens)
    requires !t.quoted && !t.closed && t.field == "" && Boundary(rest)
    ensures Tokenize(CsvCell(text) + rest, delimiter, t)
      == Tokenize(rest, delimiter, t.(field := Guarded(text), closed := true))
  {
    hide Guarded;
    var all := CsvCell(text) + rest;
    assert all[1..] == Doubled(Guarded(text)) + ['\"'] + rest;
    QuotedIsRead(Guarded(text), rest, delimiter, t.(quoted := true));
    assert "" + Guarded(text) == Guarded(text);
  }

  predicate Fresh(t: Tokens) {
    t.row == [] && t.field == "" && !t.quoted && !t.closed
  }

  /** What the tokens are once a row has been read to its end. */
  function Advanced(t: Tokens, cells: Row): Tokens {
    t.(rows := t.rows + KeptRows([cells]))
  }

  /** What the tokens are when the cells of a row have been read, but not its end. */
  function AfterCells(t: Tokens, cells: Row): Tokens {
    if cells == [] then t
    else t.(row := t.row + GuardedRow(cells)[..|cells| - 1], field := Guarded(cells[|cells| - 1]), closed := true)
  }

  /** A row is read cell by cell, or stumbles over its first comma when the semicolon is in force. */
  lemma {:induction false} RowIsRead(cells: Row, rest: string, delimiter: char, t: Tokens)
    requires !t.quoted && !t.closed && t.field == "" && (delimiter == ',' || delimiter == ';')
    requires rest == "" || rest[0] == '\r'
    ensures Tokenize(CsvRow(cells) + rest, delimiter, t) ==
      if delimiter == ';' && |cells| >= 2 then Error(TextAfterQuotes)
        else Tokenize(rest, delimiter, AfterCells(t, cells))
  {
    hide Guarded, CsvCell;
    if cells == [] {
      assert CsvRow(cells) + rest == rest;
    } else if |cells| == 1 {
      CellIsRead(cells[0], rest, delimiter, t);
      assert t.row + GuardedRow(cells)[..0] == t.row;
    } else {
      var more := "," + (CsvRow(cells[1..]) + rest);
      assert CsvRow(cells) + rest == CsvCell(cells[0]) + more;
      CellIsRead(cells[0], more, delimiter, t);
      if delimiter == ',' {
        assert more[1..] == CsvRow(cells[1..]) + rest;
        RowIsRead(cells[1..], rest, delimiter, t.(row := t.row + [Guarded(cells[0])]));
        assert t.row + [Guarded(cells[0])] + GuardedRow(cells[1..])[..|cells| - 2] == t.row
          + GuardedRow(cells)[..|cells| - 1];
      }
    }
  }

  lemma RowEnds(cells: Row, t: Tokens)
    requires Fresh(t)
    ensures EndRow(AfterCells(t, cells)) == Advanced(t, cells)
  {
    hide Guarded, Blank;
    if cells != [] {
      assert GuardedRow(cells)[..|cells| - 1] + [Guarded(cells[|cells| - 1])] == GuardedRow(cells);
      assert [] + GuardedRow(cells)[..|cells| - 1] == GuardedRow(cells)[..|cells| - 1];
      KeptOne(cells);
      assert t.rows + [] == t.rows;
    } else {
      EmptyIsBlank();
      NothingKept();
      assert t.row + [t.field] == [""] && t.rows + [] == t.rows;
    }
  }

  lemma AfterCellsIsOpen(t: Tokens, cells: Row)
    requires Fresh(t)
    ensures !AfterCells(t, cells).quoted
  {
  }

  lemma EmptyIsBlank()
    ensures Blank([""]) && Blank([])
  {
    assert Trim("") == "";
  }

  /** The last row of a text. */
  lemma LastRowIsRead(cells: Row, delimiter: char, t: Tokens)
    requires Fresh(t) && (delimiter == ',' || delimiter == ';')
    ensures Tokenize(CsvRow(cells), delimiter, t) ==
      if delimiter == ';' && |cells| >= 2 then Error(TextAfterQuotes) else Ok(Advanced(t, cells).rows)
  {
    hide AfterCells, Advanced, EndRow;
    RowIsRead(cells, "", delimiter, t);
    AfterCellsIsOpen(t, cells);
    RowEnds(cells, t);
    assert CsvRow(cells) + "" == CsvRow(cells);
  }

  /** A row followed by a line break and more text. */
  lemma InnerRowIsRead(cells: Row, more: string, delimiter: char, t: Tokens)
    requires Fresh(t) && (delimiter == ',' || delimiter == ';')
    ensures Tokenize(CsvRow(cells) + ("\r\n" + more), delimiter, t) ==
      if delimiter == ';' && |cells| >= 2 then Error(TextAfterQuotes) else Tokenize(more, delimiter, Advanced(t, cells))
  {
    hide AfterCells, Advanced, EndRow;
    var rest := "\r\n" + more;
    assert rest[2..] == more;
    RowIsRead(cells, rest, delimiter, t);
    AfterCellsIsOpen(t, cells);
    RowEnds(cells, t);
  }

  /** The whole body, under either delimiter. */
  lemma {:induction false} BodyIsRead(rows: seq<Row>, delimiter: char, t: Tokens)
    requires Fresh(t) && (delimiter == ',' || delimiter == ';')
    ensures Tokenize(CsvBody(rows), delimiter, t) ==
      if delimiter == ';' && Wide(rows) then Error(TextAfterQuotes) else Ok(t.rows + KeptRows(rows))
  {
    hide KeptRows, CsvRow, Tokenize;
    NothingKept();
    if rows == [] {
      LastRowIsRead([], delimiter, t);
      assert CsvRow([]) == "" by { EmptyRow(); }
    } else {
      KeptSplits(rows);
      assert rows == [rows[0]] + rows[1..];
      if |rows| == 1 {
        LastRowIsRead(rows[0], delimiter, t);
        assert KeptRows([rows[0]]) + [] == KeptRows([rows[0]]);
      } else {
        var more := CsvBody(rows[1..]);
        assert CsvBody(rows) == CsvRow(rows[0]) + ("\r\n" + more);
        InnerRowIsRead(rows[0], more, delimiter, t);
        BodyIsRead(rows[1..], delimiter, Advanced(t, rows[0]));
        assert t.rows + KeptRows([rows[0]]) + KeptRows(rows[1..]) == t.rows + KeptRows(rows);
      }
    }
  }

  lemma EmptyRow()
    ensures CsvRow([]) == ""
  {
  }

  lemma KeptOne(cells: Row)
    ensures KeptRows([cells]) == if Blank(GuardedRow(cells)) then [] else [GuardedRow(cells)]
  {
    assert [cells][1..] == [];
  }

  lemma NothingKept()
    ensures KeptRows([]) == [] && KeptRows([[]]) == []
  {
  }

  lemma KeptSplits(rows: seq<Row>)
    requires rows != []
    ensures KeptRows(rows) == KeptRows([rows[0]]) + KeptRows(rows[1..])
  {
    assert [rows[0]][1..] == [];
  }

  /**
   The exact outcome of reading back what was written, for every table: the size limit aside, the guarded rows come
   back unless the first physical line holds a semicolon and some row has a second cell.
   */
  lemma WhatIsWrittenIsRead(rows: seq<Row>)
    ensures ReadRows(ToCsv(rows)) ==
      if 1 + |CsvBody(rows)| > MAX_INPUT then Error(TooLarge)
      else if ';' in FirstLine(CsvBody(rows)) && Wide(rows) then Error(TextAfterQuotes)
      else Ok(KeptRows(rows))
  {
    hide CsvBody, FirstLine, KeptRows, Wide, Tokenize;
    assert WithoutBom(ToCsv(rows)) == CsvBody(rows);
    BodyIsRead(rows, Delimiter(CsvBody(rows)), NOTHING);
    assert [] + KeptRows(rows) == KeptRows(rows);
  }

  // ----- provisioning names -----

  predicate Control(c: char) {
    c <= '\U{001F}'
  }

  predicate NameOk(name: string) {
    1 <= |name| <= 120 && forall c <- name :: !Control(c)
  }

  /** `toLowerCase`, and `toLocaleLowerCase('pt-BR')`. */
  datatype Casing = Casing(lower: string -> string, localeLower: string -> string)

  function Occurrences(cells: Row, lower: string -> string): nat {
    if cells == [] then 0 else (if lower(Trim(cells[0])) == "nome" then 1 else 0) + Occurrences(cells[1..], lower)
  }

  function HeaderIndex(cells: Row, lower: string -> string): nat {
    if cells == [] || lower(Trim(cells[0])) == "nome" then 0 else 1 + HeaderIndex(cells[1..], lower)
  }

  function NameAt(row: Row, index: nat): string {
    if index < |row| then Trim(row[index]) else ""
  }

  function NamesAt(rows: seq<Row>, index: nat): (names: seq<string>)
    ensures |names| == |rows| && forall i | 0 <= i < |rows| :: names[i] == NameAt(rows[i], index)
  {
    seq(|rows|, i requires 0 <= i < |rows| => NameAt(rows[i], index))
  }

  /** The first objection to a list of names, if any. */
  function NamesError(names: seq<string>, casing: Casing, k: nat): Option<CsvError>
    requires k <= |names|
    decreases |names| - k
  {
    if k == |names| then None
    else if !NameOk(names[k]) then Some(BadName)
    else if exists j | 0 <= j < k :: casing.localeLower(names[j]) == casing.localeLower(names[k])
      then Some(DuplicateName)
    else NamesError(names, casing, k + 1)
  }

  function NamesOf(rows: seq<Row>, casing: Casing): Parsed<seq<string>> {
    var headers := if rows == [] then [] else rows[0];
    if Occurrences(headers, casing.lower) != 1 then Error(HeaderError)
    else
      var names := NamesAt(rows[1..], HeaderIndex(headers, casing.lower));
      if names == [] || |names| > 100 then Error(RowCount)
      else match NamesError(names, casing, 0) case Some(e) => Error(e) case None => Ok(names)
  }

  function ParseProvisioning(input: string, casing: Casing): Parsed<seq<string>> {
    match ReadRows(input)
    case Error(e) => Error(e)
    case Ok(rows) => NamesOf(rows, casing)
  }

  method CheckNames(names: seq<string>, casing: Casing) returns (error: Option<CsvError>)
    ensures error == NamesError(names, casing, 0)
    ensures error == None <==>
      && (forall name <- names :: NameOk(name))
      && forall i, j | 0 <= i < j < |names| :: casing.localeLower(names[i]) != casing.localeLower(names[j])
  {
    var seen: set<string> := {};
    for k := 0 to |names|
      invariant NamesError(names, casing, k) == NamesError(names, casing, 0)
      invariant forall j | 0 <= j < k :: casing.localeLower(names[j]) in seen && NameOk(names[j])
      invariant forall key <- seen :: exists j | 0 <= j < k :: casing.localeLower(names[j]) == key
      invariant forall i, j | 0 <= i < j < k :: casing.localeLower(names[i]) != casing.localeLower(names[j])
    {
      if !NameOk(names[k]) { return Some(BadName); }
      var key := casing.localeLower(names[k]);
      if key in seen { return Some(DuplicateName); }
      seen := seen + {key};
    }
    return None;
  }

  method ParseProvisioningCsv(input: string, casing: Casing) returns (r: Parsed<seq<string>>)
    ensures r == ParseProvisioning(input, casing)
  {
    if |input| > MAX_INPUT { return Error(TooLarge); }
    var text := WithoutBom(input);
    var tokens := TokenizeLoop(text, Delimiter(text));
    if tokens.Error? { return Error(tokens.error); }
    var rows := tokens.value;
    var headers := if rows == [] then [] else rows[0];
    if Occurrences(headers, casing.lower) != 1 { return Error(HeaderError); }
    assert rows != [];
    var names := NamesAt(rows[1..], HeaderIndex(headers, casing.lower));
    if names == [] || |names| > 100 { return Error(RowCount); }
    var error := CheckNames(names, casing);
    if error.Some? { return Error(error.value); }
    return Ok(names);
  }

  // ----- what becomes of a list of names -----

  function NameRows(names: seq<string>): (rows: seq<Row>)
    ensures |rows| == |names| && forall i | 0 <= i < |names| :: rows[i] == [names[i]]
  {
    seq(|names|, i requires 0 <= i < |names| => [names[i]])
  }

  /** A list of names as it is exported. */
  function Export(names: seq<string>): string {
    ToCsv([["nome"]] + NameRows(names))
  }

  /** What one name comes back as: guarded if it looks like a formula, and trimmed. */
  function Imported(name: string): string {
    Trim(Guarded(name))
  }

  /** What a list comes back as: blank names are lost. */
  function ImportedNames(names: seq<string>): seq<string> {
    if names == [] then []
    else (if Imported(names[0]) == "" then [] else [Imported(names[0])]) + ImportedNames(names[1..])
  }

  /** The verdict on a list of imported names. */
  function Verdict(names: seq<string>, casing: Casing): Parsed<seq<string>> {
    if names == [] || |names| > 100 then Error(RowCount)
    else match NamesError(names, casing, 0) case Some(e) => Error(e) case None => Ok(names)
  }

  lemma HeaderText()
    ensures Trim("nome") == "nome" && !Formula("nome") && Imported("nome") == "nome"
  {
    assert TrimStart("nome") == "nome" && TrimEnd("nome") == "nome";
  }

  lemma NarrowRows(names: seq<string>)
    ensures !Wide([["nome"]] + NameRows(names))
  {
  }

  lemma OneCell(name: string)
    ensures GuardedRow([name]) == [Guarded(name)] && (Blank([Guarded(name)]) <==> Imported(name) == "")
  {
    hide Formula, Trim;
    assert Guarded(name) in [Guarded(name)];
  }

  lemma {:induction false} KeptNames(names: seq<string>)
    ensures NamesAt(KeptRows(NameRows(names)), 0) == ImportedNames(names)
  {
    hide Trim, Guarded, GuardedRow, Blank, KeptRows, NamesAt, NameRows, Imported;
    NothingKept();
    if names != [] {
      var rows, rest := NameRows(names), KeptRows(NameRows(names[1..]));
      assert rows[0] == [names[0]] && rows[1..] == NameRows(names[1..]);
      KeptNames(names[1..]);
      OneCell(names[0]);
      KeptSplits(rows);
      KeptOne(rows[0]);
      OneMoreName(Guarded(names[0]), rest);
      assert [] + rest == rest && Trim(Guarded(names[0])) == Imported(names[0]) by { ImportedIs(names[0]); }
    } else {
      assert NameRows(names) == [];
    }
  }

  lemma ImportedIs(name: string)
    ensures Imported(name) == Trim(Guarded(name))
  {
  }

  lemma OneMoreName(cell: string, rest: seq<Row>)
    ensures NamesAt([[cell]] + rest, 0) == [Trim(cell)] + NamesAt(rest, 0)
  {
    hide Trim;
  }

  lemma HeaderIsKept(names: seq<string>)
    ensures KeptRows([["nome"]] + NameRows(names)) == [["nome"]] + KeptRows(NameRows(names))
  {
    HeaderText();
    OneCell("nome");
    var rows := [["nome"]] + NameRows(names);
    assert rows[0] == ["nome"] && rows[1..] == NameRows(names);
    hide Blank, Trim, Formula;
  }

  /** Exactly what exporting a list of names and importing it again gives, for every list. */
  lemma ExportedNamesComeBackAs(names: seq<string>, casing: Casing)
    requires casing.lower("nome") == "nome"
    ensures ParseProvisioning(Export(names), casing) ==
      if |Export(names)| > MAX_INPUT then Error(TooLarge) else Verdict(ImportedNames(names), casing)
  {
    var rows := [["nome"]] + NameRows(names);
    hide KeptRows, Wide, CsvBody, FirstLine, NamesOf, ImportedNames, NamesError;
    WhatIsWrittenIsRead(rows);
    NarrowRows(names);
    HeaderIsKept(names);
    KeptNames(names);
    HeaderIsFound(KeptRows(NameRows(names)), casing);
  }

  lemma HeaderIsFound(rows: seq<Row>, casing: Casing)
    requires casing.lower("nome") == "nome"
    ensures NamesOf([["nome"]] + rows, casing) == Verdict(NamesAt(rows, 0), casing)
  {
    HeaderText();
    hide Trim, NamesError;
    assert ["nome"][1..] == [];
    assert Occurrences(["nome"], casing.lower) == 1 && HeaderIndex(["nome"], casing.lower) == 0;
    assert ([["nome"]] + rows)[1..] == rows;
  }

  /** Names that need neither trimming nor the formula guard. */
  predicate Exportable(name: string) {
    NameOk(name) && Trim(name) == name && !Formula(name)
  }

  lemma {:induction false} NamesErrorIff(names: seq<string>, casing: Casing, k: nat)
    requires k <= |names|
    ensures NamesError(names, casing, k) == None <==>
      && (forall i | k <= i < |names| :: NameOk(names[i]))
      && forall i, j | 0 <= i < j < |names| && k <= j :: casing.localeLower(names[i]) != casing.localeLower(names[j])
    decreases |names| - k
  {
    hide NameOk;
    if k < |names| { NamesErrorIff(names, casing, k + 1); }
  }

  lemma {:induction false} TrimEndKeepsHead(s: string)
    requires s != "" && !IsSpace(s[0])
    ensures TrimEnd(s) != "" && TrimEnd(s)[0] == s[0]
  {
    if |s| > 1 && IsSpace(s[|s| - 1]) {
      TrimEndKeepsHead(s[..|s| - 1]);
    }
  }

  /** A guarded name never comes back as itself. */
  lemma SameNameIff(name: string)
    ensures Imported(name) == name <==> Trim(name) == name && !Formula(name)
  {
    if Formula(name) {
      var guarded := ['\''] + name;
      assert TrimStart(guarded) == guarded;
      TrimEndKeepsHead(guarded);
      assert Trim(guarded)[0] == '\'';
      assert name != "" && name[0] == '\'' ==> TrimStart(name) == name;
    }
  }

  lemma {:induction false} SameNamesIff(names: seq<string>)
    ensures |ImportedNames(names)| <= |names|
    ensures ImportedNames(names) == names <==>
      forall i | 0 <= i < |names| :: names[i] != "" && Trim(names[i]) == names[i] && !Formula(names[i])
  {
    hide Trim, Formula, Imported;
    if names != [] {
      SameNamesIff(names[1..]);
      SameNameIff(names[0]);
      assert names == [names[0]] + names[1..];
      var rest := ImportedNames(names[1..]);
      if ImportedNames(names) == names {
        assert |rest| + 1 >= |names|;
        assert Imported(names[0]) != "";
        assert ImportedNames(names) == [Imported(names[0])] + rest;
      }
      forall i | 0 < i < |names| ensures names[i] == names[1..][i - 1] {}
    }
  }

  /**
   A list survives the round trip exactly when it has 1 to 100 names that are legal, trimmed, no formulas, and pairwise
   different in lower case, and its file is not too large.
   */
  lemma NamesRoundTripIff(names: seq<string>, casing: Casing)
    requires casing.lower("nome") == "nome"
    ensures ParseProvisioning(Export(names), casing) == Ok(names) <==>
      && 1 <= |names| <= 100 && (forall name <- names :: Exportable(name))
      && (forall i, j | 0 <= i < j < |names| :: casing.localeLower(names[i]) != casing.localeLower(names[j]))
      && |Export(names)| <= MAX_INPUT
  {
    ExportedNamesComeBackAs(names, casing);
    SameNamesIff(names);
    NamesErrorIff(names, casing, 0);
    hide ParseProvisioning, ImportedNames, NamesError, Trim, Formula, Export;
    assert (forall name <- names :: Exportable(name)) <==> forall i | 0 <= i < |names| :: Exportable(names[i]);
  }
}
