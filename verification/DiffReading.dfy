/**
 What a flow makes of two blocks that a comparison of graphs cannot tell apart: configured blocks offer the same
 outputs, and run alike exactly as far as the numbers among their texts can be written in JSON.
 */
module DiffReading {
  import opened Json
  import opened FlowGraph
  import opened FlowValidator
  import opened FlowReading
  import opened Canonical
  import opened GraphDiff

  /** The setting is not itself a number that JSON cannot express. */
  predicate FiniteSetting(fields: Fields, key: string) {
    key in fields && fields[key].Number? ==> IsDigitText(fields[key].text)
  }

  /** The texts that a run of the block reads are not such numbers. */
  predicate RunsFinite(n: Node) {
    && (forall key <- TextsRead(n.kind) :: FiniteSetting(n.data, key))
    && (n.kind == Menu ==> forall raw <- RawOptions(n) | raw.Obj? :: FiniteSetting(raw.fields, "label"))
  }

  // ----- one setting -----

  lemma SettingsAreWritten(l: Fields, r: Fields, key: string)
    requires Written(Obj(l)) == Written(Obj(r))
    ensures WrittenField(Field(l, key)) == WrittenField(Field(r, key))
  {
    var w, w' := Written(Obj(l)).fields, Written(Obj(r)).fields;
    assert w == w' && w.Keys == l.Keys && w'.Keys == r.Keys;
    assert key in w ==> w[key] == Written(l[key]) && w'[key] == Written(r[key]);
  }

  lemma SameTextIff(l: Fields, r: Fields, key: string)
    requires WrittenField(Field(l, key)) == WrittenField(Field(r, key)) && FiniteSetting(l, key)
    ensures ValueText(Field(l, key)) == ValueText(Field(r, key)) <==> FiniteSetting(r, key)
  {
    hide IsDigitText;
  }

  lemma OptionNumberIsFinite(fields: Fields, key: string)
    requires IsOptionNumber(Trim(ValueText(Field(fields, key))))
    ensures FiniteSetting(fields, key)
  {
    assert Trim("NaN") == "NaN" && Trim("Infinity") == "Infinity" && Trim("-Infinity") == "-Infinity";
  }

  // ----- menus -----

  lemma OptionsWrittenAlike(x: Json, y: Json, o: MenuOption, p: MenuOption)
    requires Written(x) == Written(y) && IsOptionOf(o, x) && IsOptionOf(p, y)
    ensures x.Obj? && y.Obj? && o.value == p.value
    ensures FiniteSetting(x.fields, "label") ==> FiniteSetting(y.fields, "label") && o == p
  {
    hide Written, IsOptionNumber, FiniteSetting;
    SettingsAreWritten(x.fields, y.fields, "value");
    SettingsAreWritten(x.fields, y.fields, "label");
    OptionNumberIsFinite(x.fields, "value");
    OptionNumberIsFinite(y.fields, "value");
    SameTextIff(x.fields, y.fields, "value");
    if FiniteSetting(x.fields, "label") {
      LabelIsFinite(x.fields, y.fields);
      SameTextIff(x.fields, y.fields, "label");
    }
  }

  /** A legal label is not nothing, and so is not written like a number that JSON cannot express. */
  lemma LabelIsFinite(l: Fields, r: Fields)
    requires WrittenField(Field(l, "label")) == WrittenField(Field(r, "label"))
    requires FiniteSetting(l, "label") && Trim(ValueText(Field(l, "label"))) != ""
    ensures FiniteSetting(r, "label")
  {
    hide IsDigitText;
  }

  lemma {:induction false} LegalOptionsAreRead(raws: seq<Json>)
    requires forall raw <- raws :: LegalOption(raw)
    ensures |ReadOptions(raws)| == |raws| && forall i | 0 <= i < |raws| :: IsOptionOf(ReadOptions(raws)[i], raws[i])
  {
    hide LegalOption, OptionOf, ReadOption;
    if raws == [] {
    } else {
      OneOptionIsRead(raws[0]);
      LegalOptionsAreRead(raws[1..]);
    }
  }

  lemma MenuIsRead(h: Host, n: Node)
    requires n.kind == Menu && Configured(h, n)
    ensures |MenuOptions(n)| == |RawOptions(n)|
    ensures forall i | 0 <= i < |RawOptions(n)| :: IsOptionOf(MenuOptions(n)[i], RawOptions(n)[i])
  {
    hide ReadOptions, LegalOption, TextOk, DistinctOptions;
    OptionsAreTheLegalOnes(RawOptions(n), MenuOption("", ""));
    LegalOptionsAreRead(RawOptions(n));
  }

  lemma RawOptionsAreWritten(l: Node, r: Node)
    requires WrittenField(Field(l.data, "options")) == WrittenField(Field(r.data, "options"))
    ensures |RawOptions(l)| == |RawOptions(r)|
    ensures forall i | 0 <= i < |RawOptions(l)| :: Written(RawOptions(l)[i]) == Written(RawOptions(r)[i])
  {
    var xs, ys := RawOptions(l), RawOptions(r);
    assert WrittenItems(xs) == WrittenItems(ys);
    forall i | 0 <= i < |xs| ensures Written(xs[i]) == Written(ys[i]) {
      assert WrittenItems(xs)[i] == Written(xs[i]) && WrittenItems(ys)[i] == Written(ys[i]);
    }
  }

  ghost predicate FiniteLabels(raws: seq<Json>) {
    forall raw <- raws | raw.Obj? :: FiniteSetting(raw.fields, "label")
  }

  lemma MenusWrittenAlike(h: Host, l: Node, r: Node)
    requires l.kind == Menu && r.kind == Menu && Configured(h, l) && Configured(h, r)
    requires WrittenField(Field(l.data, "options")) == WrittenField(Field(r.data, "options"))
    ensures FlowPorts(l) == FlowPorts(r)
    ensures FiniteLabels(RawOptions(l)) ==> FiniteLabels(RawOptions(r)) && MenuOptions(l) == MenuOptions(r)
  {
    hide *;
    MenuIsRead(h, l);
    MenuIsRead(h, r);
    RawOptionsAreWritten(l, r);
    var xs, ys := RawOptions(l), RawOptions(r);
    forall i | 0 <= i < |xs|
      ensures MenuOptions(l)[i].value == MenuOptions(r)[i].value
      ensures xs[i].Obj? && ys[i].Obj?
      ensures FiniteSetting(xs[i].fields, "label") ==>
        FiniteSetting(ys[i].fields, "label") && MenuOptions(l)[i] == MenuOptions(r)[i]
    {
      OptionsWrittenAlike(xs[i], ys[i], MenuOptions(l)[i], MenuOptions(r)[i]);
    }
    SamePorts(l, r);
    if FiniteLabels(xs) { SameLabels(xs, ys); }
  }

  lemma SamePorts(l: Node, r: Node)
    requires l.kind == Menu && r.kind == Menu && |MenuOptions(l)| == |MenuOptions(r)|
    requires forall i | 0 <= i < |MenuOptions(l)| :: MenuOptions(l)[i].value == MenuOptions(r)[i].value
    ensures FlowPorts(l) == FlowPorts(r)
  {
    hide MenuOptions;
  }

  lemma SameLabels(xs: seq<Json>, ys: seq<Json>)
    requires |xs| == |ys| && FiniteLabels(xs) && forall i | 0 <= i < |xs| :: xs[i].Obj? && ys[i].Obj?
    requires forall i | 0 <= i < |xs| :: FiniteSetting(xs[i].fields, "label") ==> FiniteSetting(ys[i].fields, "label")
    ensures forall i | 0 <= i < |xs| :: FiniteSetting(xs[i].fields, "label")
    ensures FiniteLabels(ys)
  {
    hide FiniteSetting;
    assert forall i | 0 <= i < |xs| :: xs[i] in xs;
  }

  // ----- configured blocks written alike -----

  lemma SamePortsWhenConfigured(h: Host, l: Node, r: Node)
    requires Written(NodeJson(l)) == Written(NodeJson(r)) && Configured(h, l) && Configured(h, r)
    ensures FlowPorts(l) == FlowPorts(r)
  {
    WrittenAlikeIff(l, r);
    hide Written, NodeJson, Configured, MenuOptions, PositionJson;
    if l.kind == Menu {
      SettingsAreWritten(l.data, r.data, "options");
      MenusWrittenAlike(h, l, r);
    }
  }

  lemma SameOperator(h: Host, l: Node, r: Node)
    requires l.kind == Condition && r.kind == Condition && Configured(h, l)
    requires WrittenField(Field(l.data, "operator")) == WrittenField(Field(r.data, "operator"))
    ensures Field(l.data, "operator") == Field(r.data, "operator")
  {
    hide SafeKey;
    var text := ValueText(Field(l.data, "operator"));
    assert text in OPERATORS;
    assert text[0] == 'e' || text[0] == 'n' || text[0] == 'c' || text[0] == 's' || text[0] == 'p';
    assert text != "true" && text != "false" && !IsNumberText(text);
  }

  /**
   Of two configured blocks written alike, the first with texts that JSON can express: a run cannot tell them apart if
   and only if the texts of the second are such texts too.
   */
  lemma RunsAlikeIff(h: Host, l: Node, r: Node)
    requires Written(NodeJson(l)) == Written(NodeJson(r)) && Configured(h, l) && Configured(h, r) && RunsFinite(l)
    ensures RunsAlike(l, r) <==> RunsFinite(r)
  {
    WrittenAlikeIff(l, r);
    hide Written, NodeJson, PositionJson, Configured, MenuOptions, WrittenField, ValueText, FiniteSetting, TextsRead;
    forall key <- TextsRead(l.kind)
      ensures ValueText(Field(l.data, key)) == ValueText(Field(r.data, key)) <==> FiniteSetting(r.data, key)
    {
      SettingsAreWritten(l.data, r.data, key);
      SameTextIff(l.data, r.data, key);
    }
    if l.kind == Menu {
      SettingsAreWritten(l.data, r.data, "options");
      MenusWrittenAlike(h, l, r);
    }
    if l.kind == Condition {
      SettingsAreWritten(l.data, r.data, "operator");
      SameOperator(h, l, r);
    }
  }
}
