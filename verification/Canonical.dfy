/**
 `canonical` of apps/web/src/automations/graph-diff.ts: the text by which two JSON values are compared. It is
 injective on finite JSON, whatever order the keys of an object are listed in.
 */
module Canonical {
  import opened Wrappers
  import opened Json

  /** Sorting by a total order turns each set of keys into one list of exactly those keys. */
  ghost predicate Sorts(sorted: set<string> -> seq<string>) {
    forall keys: set<string> :: Lists(sorted(keys), keys)
  }

  ghost predicate Lists(list: seq<string>, keys: set<string>) {
    && (forall key <- list :: key in keys)
    && (forall key <- keys :: key in list)
    && (forall i, j | 0 <= i < j < |list| :: list[i] != list[j])
  }

  // ----- JSON.stringify on strings -----

  function HexDigit(n: nat): char
    requires n < 16
  {
    "0123456789abcdef"[n]
  }

  function EscapeChar(c: char): (s: string)
    ensures |s| > 0 && s[0] != '\"'
  {
    if c == '\"' then ['\\', '\"']
    else if c == '\\' then ['\\', '\\']
    else if c == '\U{0008}' then ['\\', 'b']
    else if c == '\U{000C}' then ['\\', 'f']
    else if c == '\n' then ['\\', 'n']
    else if c == '\r' then ['\\', 'r']
    else if c == '\t' then ['\\', 't']
    else if c < ' ' then ['\\', 'u', '0', '0', HexDigit(c as nat / 16), HexDigit(c as nat % 16)]
    else [c]
  }

  /** The escaped text followed by its closing quote. */
  function Escaped(s: string): string {
    if s == [] then ['\"'] else EscapeChar(s[0]) + Escaped(s[1..])
  }

  function Quote(s: string): string {
    ['\"'] + Escaped(s)
  }

  // ----- canonical -----

  function Canonical(sorted: set<string> -> seq<string>, v: Json): string
    requires Sorts(sorted)
    decreases v, 1, 0
  {
    match v
    case Null => "null"
    case Bool(b) => if b then "true" else "false"
    case Number(text) => if IsDigitText(text) then text else "null"
    case Str(s) => Quote(s)
    case Arr(items) => "[" + Items(sorted, items) + "]"
    case Obj(fields) =>
      assert Lists(sorted(fields.Keys), fields.Keys);
      "{" + Entries(sorted, v, sorted(fields.Keys)) + "}"
  }

  function Items(sorted: set<string> -> seq<string>, items: seq<Json>): string
    requires Sorts(sorted)
    decreases items, 0, 0
  {
    if items == [] then ""
    else if |items| == 1 then Canonical(sorted, items[0])
    else Canonical(sorted, items[0]) + "," + Items(sorted, items[1..])
  }

  function Entry(sorted: set<string> -> seq<string>, v: Json, key: string): string
    requires Sorts(sorted) && v.Obj? && key in v.fields
    decreases v, 0, 0
  {
    Quote(key) + ":" + Canonical(sorted, v.fields[key])
  }

  function Entries(sorted: set<string> -> seq<string>, v: Json, keys: seq<string>): string
    requires Sorts(sorted) && v.Obj? && forall key <- keys :: key in v.fields
    decreases v, 0, 1 + |keys|
  {
    if keys == [] then ""
    else if |keys| == 1 then Entry(sorted, v, keys[0])
    else Entry(sorted, v, keys[0]) + "," + Entries(sorted, v, keys[1..])
  }

  /** `undefined` has a text of its own. */
  function CanonicalField(sorted: set<string> -> seq<string>, v: Option<Json>): string
    requires Sorts(sorted)
  {
    match v
    case None => "undefined"
    case Some(value) => Canonical(sorted, value)
  }

  // ----- injectivity -----

  /** JSON text cannot express NaN or infinities. */
  ghost predicate FiniteJson(v: Json) {
    match v
    case Number(text) => IsDigitText(text)
    case Arr(items) => forall item <- items :: FiniteJson(item)
    case Obj(fields) => forall key <- fields :: FiniteJson(fields[key])
    case _ => true
  }

  predicate Delimiter(c: char) {
    c == ',' || c == ']' || c == '}'
  }

  predicate Ends(s: string) {
    s == "" || Delimiter(s[0])
  }

  lemma TokenPrefix(a: string, b: string, s: string, t: string)
    requires a + s == b + t && Ends(s) && Ends(t)
    requires (forall c <- a :: !Delimiter(c)) && (forall c <- b :: !Delimiter(c))
    ensures a == b && s == t
  {
    assert forall i | 0 <= i < |a| :: (a + s)[i] == a[i];
    assert forall i | 0 <= i < |b| :: (b + t)[i] == b[i];
    assert s != "" ==> (a + s)[|a|] == s[0];
    assert t != "" ==> (b + t)[|b|] == t[0];
    assert |a| == |b|;
    assert a == (a + s)[..|a|] && b == (b + t)[..|b|];
    assert s == (a + s)[|a|..] && t == (b + t)[|b|..];
  }

  lemma EscapePrefix(c: char, d: char, s: string, t: string)
    requires EscapeChar(c) + s == EscapeChar(d) + t
    ensures c == d && s == t
  {
    var x, y := EscapeChar(c) + s, EscapeChar(d) + t;
    assert x[0] == EscapeChar(c)[0] && y[0] == EscapeChar(d)[0];
    if x[0] == '\\' {
      assert x[1] == EscapeChar(c)[1] && y[1] == EscapeChar(d)[1];
      if x[1] == 'u' {
        assert x[4] == EscapeChar(c)[4] && y[4] == EscapeChar(d)[4];
        assert x[5] == EscapeChar(c)[5] && y[5] == EscapeChar(d)[5];
        HexPrefix(c as nat / 16, d as nat / 16);
        HexPrefix(c as nat % 16, d as nat % 16);
      }
    }
    assert c == d;
    assert s == x[|EscapeChar(c)|..] && t == y[|EscapeChar(d)|..];
  }

  lemma HexPrefix(m: nat, n: nat)
    requires m < 16 && n < 16 && HexDigit(m) == HexDigit(n)
    ensures m == n
  {
  }

  lemma {:induction false} EscapedPrefix(a: string, b: string, s: string, t: string)
    requires Escaped(a) + s == Escaped(b) + t
    ensures a == b && s == t
  {
    hide EscapeChar;
    var x, y := Escaped(a) + s, Escaped(b) + t;
    assert x[0] == if a == [] then '\"' else EscapeChar(a[0])[0];
    assert y[0] == if b == [] then '\"' else EscapeChar(b[0])[0];
    if a != [] && b != [] {
      assert x == EscapeChar(a[0]) + (Escaped(a[1..]) + s);
      assert y == EscapeChar(b[0]) + (Escaped(b[1..]) + t);
      EscapePrefix(a[0], b[0], Escaped(a[1..]) + s, Escaped(b[1..]) + t);
      EscapedPrefix(a[1..], b[1..], s, t);
      assert a == [a[0]] + a[1..] && b == [b[0]] + b[1..];
    } else if a == [] && b == [] {
      assert s == x[1..] && t == y[1..];
    }
  }

  lemma QuotePrefix(a: string, b: string, s: string, t: string)
    requires Quote(a) + s == Quote(b) + t
    ensures a == b && s == t
  {
    hide Escaped;
    assert (Quote(a) + s)[1..] == Escaped(a) + s;
    assert (Quote(b) + t)[1..] == Escaped(b) + t;
    EscapedPrefix(a, b, s, t);
  }

  /** The head of a canonical text names its kind of value. */
  function Head(v: Json): char {
    match v
    case Null => 'n'
    case Bool(b) => if b then 't' else 'f'
    case Number(text) => if IsDigitText(text) then text[0] else 'n'
    case Str(_) => '\"'
    case Arr(_) => '['
    case Obj(_) => '{'
  }

  lemma CanonicalHead(sorted: set<string> -> seq<string>, v: Json)
    requires Sorts(sorted)
    ensures Canonical(sorted, v) != "" && Canonical(sorted, v)[0] == Head(v) && !Delimiter(Head(v))
  {
  }

  predicate Scalar(v: Json) {
    v.Null? || v.Bool? || v.Number?
  }

  lemma ScalarPrefix(sorted: set<string> -> seq<string>, v: Json, w: Json, s: string, t: string)
    requires Sorts(sorted) && Scalar(v) && Scalar(w) && FiniteJson(v) && FiniteJson(w) && Ends(s) && Ends(t)
    requires Canonical(sorted, v) + s == Canonical(sorted, w) + t
    ensures v == w && s == t
  {
    TokenPrefix(Canonical(sorted, v), Canonical(sorted, w), s, t);
    assert "null"[0] == 'n' && "true"[0] == 't' && "false"[0] == 'f';
  }

  /** No canonical text is confused with another one, even inside a longer text. */
  lemma {:induction false} CanonicalPrefix(sorted: set<string> -> seq<string>, v: Json, w: Json, s: string, t: string)
    requires Sorts(sorted) && FiniteJson(v) && FiniteJson(w) && Ends(s) && Ends(t)
    requires Canonical(sorted, v) + s == Canonical(sorted, w) + t
    ensures v == w && s == t
    decreases v, 2, 0
  {
    hide Canonical, FiniteJson, Sorts;
    CanonicalHead(sorted, v);
    CanonicalHead(sorted, w);
    assert (Canonical(sorted, v) + s)[0] == Head(v) && (Canonical(sorted, w) + t)[0] == Head(w);
    if v.Str? {
      StringCanonical(sorted, v.s);
      StringCanonical(sorted, w.s);
      QuotePrefix(v.s, w.s, s, t);
    } else if v.Arr? {
      ArrayPrefix(sorted, v, w, s, t);
    } else if v.Obj? {
      ObjectPrefix(sorted, v, w, s, t);
    } else {
      ScalarPrefix(sorted, v, w, s, t);
    }
  }

  lemma StringCanonical(sorted: set<string> -> seq<string>, s: string)
    requires Sorts(sorted)
    ensures Canonical(sorted, Str(s)) == Quote(s)
  {
  }

  lemma ArrayPrefix(sorted: set<string> -> seq<string>, v: Json, w: Json, s: string, t: string)
    requires Sorts(sorted) && v.Arr? && w.Arr? && FiniteJson(v) && FiniteJson(w)
    requires Canonical(sorted, v) + s == Canonical(sorted, w) + t
    ensures v == w && s == t
    decreases v, 1, 0
  {
    hide Items, Sorts;
    var x, y := Canonical(sorted, v) + s, Canonical(sorted, w) + t;
    assert x[1..] == Items(sorted, v.items) + ("]" + s);
    assert y[1..] == Items(sorted, w.items) + ("]" + t);
    ItemsPrefix(sorted, v.items, w.items, "]" + s, "]" + t);
    assert s == ("]" + s)[1..] && t == ("]" + t)[1..];
  }

  lemma ObjectPrefix(sorted: set<string> -> seq<string>, v: Json, w: Json, s: string, t: string)
    requires Sorts(sorted) && v.Obj? && w.Obj? && FiniteJson(v) && FiniteJson(w)
    requires Canonical(sorted, v) + s == Canonical(sorted, w) + t
    ensures v == w && s == t
    decreases v, 1, 0
  {
    hide Entries;
    var x, y := Canonical(sorted, v) + s, Canonical(sorted, w) + t;
    var ks, ls := sorted(v.fields.Keys), sorted(w.fields.Keys);
    assert Lists(ks, v.fields.Keys) && Lists(ls, w.fields.Keys);
    assert x[1..] == Entries(sorted, v, ks) + ("}" + s);
    assert y[1..] == Entries(sorted, w, ls) + ("}" + t);
    EntriesPrefix(sorted, v, w, ks, ls, "}" + s, "}" + t);
    assert v.fields == w.fields;
    assert s == ("}" + s)[1..] && t == ("}" + t)[1..];
  }

  /** What follows the first of several parts. */
  function Rest(more: string, last: bool, s: string): string {
    if last then s else "," + (more + s)
  }

  lemma RestPrefix(more: string, more': string, last: bool, last': bool, s: string, t: string)
    requires s != "" && t != "" && s[0] != ',' && t[0] != ','
    requires Rest(more, last, s) == Rest(more', last', t)
    ensures last == last'
    ensures if last then s == t else more + s == more' + t
  {
    assert !last ==> Rest(more, last, s)[0] == ',' && Rest(more, last, s)[1..] == more + s;
    assert !last' ==> Rest(more', last', t)[0] == ',' && Rest(more', last', t)[1..] == more' + t;
  }

  lemma {:induction false} ItemsPrefix(sorted: set<string> -> seq<string>, xs: seq<Json>, ys: seq<Json>, s: string,
                                       t: string)
    requires Sorts(sorted) && (forall x <- xs :: FiniteJson(x)) && (forall y <- ys :: FiniteJson(y))
    requires s != "" && t != "" && s[0] == ']' && t[0] == ']'
    requires Items(sorted, xs) + s == Items(sorted, ys) + t
    ensures xs == ys && s == t
    decreases xs, 0, 0
  {
    hide *;
    ItemsSplit(sorted, xs, s);
    ItemsSplit(sorted, ys, t);
    if xs != [] && ys != [] {
      var s' := Rest(Items(sorted, xs[1..]), |xs| == 1, s);
      var t' := Rest(Items(sorted, ys[1..]), |ys| == 1, t);
      CanonicalPrefix(sorted, xs[0], ys[0], s', t');
      RestPrefix(Items(sorted, xs[1..]), Items(sorted, ys[1..]), |xs| == 1, |ys| == 1, s, t);
      if |xs| > 1 { ItemsPrefix(sorted, xs[1..], ys[1..], s, t); }
      assert xs == [xs[0]] + xs[1..] && ys == [ys[0]] + ys[1..];
    }
  }

  lemma ItemsSplit(sorted: set<string> -> seq<string>, xs: seq<Json>, s: string)
    requires Sorts(sorted) && s != "" && s[0] == ']'
    ensures var x := Items(sorted, xs) + s;
      if xs == [] then x == s
      else
        var rest := Rest(Items(sorted, xs[1..]), |xs| == 1, s);
        x == Canonical(sorted, xs[0]) + rest && x[0] != ']' && Ends(rest)
  {
    hide Sorts, Canonical, Rest, Ends;
    if xs != [] {
      CanonicalHead(sorted, xs[0]);
      RestFollows(Canonical(sorted, xs[0]), Items(sorted, xs[1..]), |xs| == 1, s);
    }
  }

  lemma EntryPrefix(sorted: set<string> -> seq<string>, v: Json, w: Json, k: string, l: string, s: string, t: string)
    requires Sorts(sorted) && v.Obj? && w.Obj? && FiniteJson(v) && FiniteJson(w) && k in v.fields && l in w.fields
    requires Ends(s) && Ends(t)
    requires Entry(sorted, v, k) + s == Entry(sorted, w, l) + t
    ensures k == l && v.fields[k] == w.fields[l] && s == t
    decreases v, 0, 0
  {
    hide Canonical, Quote, Sorts;
    var a, b := Canonical(sorted, v.fields[k]) + s, Canonical(sorted, w.fields[l]) + t;
    assert Entry(sorted, v, k) + s == Quote(k) + (":" + a);
    assert Entry(sorted, w, l) + t == Quote(l) + (":" + b);
    QuotePrefix(k, l, ":" + a, ":" + b);
    assert (":" + a)[1..] == a && (":" + b)[1..] == b;
    CanonicalPrefix(sorted, v.fields[k], w.fields[l], s, t);
  }

  lemma {:induction false} EntriesPrefix(sorted: set<string> -> seq<string>, v: Json, w: Json, ks: seq<string>,
                                         ls: seq<string>, s: string, t: string)
    requires Sorts(sorted) && v.Obj? && w.Obj? && FiniteJson(v) && FiniteJson(w)
    requires (forall k <- ks :: k in v.fields) && (forall l <- ls :: l in w.fields)
    requires s != "" && t != "" && s[0] == '}' && t[0] == '}'
    requires Entries(sorted, v, ks) + s == Entries(sorted, w, ls) + t
    ensures ks == ls && s == t && forall k <- ks :: v.fields[k] == w.fields[k]
    decreases v, 0, 1 + |ks|
  {
    hide *;
    EntriesSplit(sorted, v, ks, s);
    EntriesSplit(sorted, w, ls, t);
    if ks != [] && ls != [] {
      var s' := Rest(Entries(sorted, v, ks[1..]), |ks| == 1, s);
      var t' := Rest(Entries(sorted, w, ls[1..]), |ls| == 1, t);
      EntryPrefix(sorted, v, w, ks[0], ls[0], s', t');
      RestPrefix(Entries(sorted, v, ks[1..]), Entries(sorted, w, ls[1..]), |ks| == 1, |ls| == 1, s, t);
      if |ks| > 1 { EntriesPrefix(sorted, v, w, ks[1..], ls[1..], s, t); }
      assert ks == [ks[0]] + ks[1..] && ls == [ls[0]] + ls[1..];
    }
  }

  lemma EntriesSplit(sorted: set<string> -> seq<string>, v: Json, ks: seq<string>, s: string)
    requires Sorts(sorted) && v.Obj? && (forall k <- ks :: k in v.fields)
    requires s != "" && s[0] == '}'
    ensures var x := Entries(sorted, v, ks) + s;
      if ks == [] then x == s
      else
        var rest := Rest(Entries(sorted, v, ks[1..]), |ks| == 1, s);
        x == Entry(sorted, v, ks[0]) + rest && x[0] == '\"' && Ends(rest)
  {
    hide Sorts, Entry, Rest, Ends;
    if ks != [] {
      EntryHead(sorted, v, ks[0]);
      var first, more := Entry(sorted, v, ks[0]), Entries(sorted, v, ks[1..]);
      RestFollows(first, more, |ks| == 1, s);
    }
  }

  lemma RestFollows(first: string, more: string, last: bool, s: string)
    requires first != "" && s != "" && Delimiter(s[0])
    ensures (if last then first else first + "," + more) + s == first + Rest(more, last, s)
    ensures (first + Rest(more, last, s))[0] == first[0] && Ends(Rest(more, last, s))
  {
    if !last { assert first + "," + more + s == first + ("," + (more + s)); }
  }

  lemma EntryHead(sorted: set<string> -> seq<string>, v: Json, k: string)
    requires Sorts(sorted) && v.Obj? && k in v.fields
    ensures Entry(sorted, v, k) != "" && Entry(sorted, v, k)[0] == '\"'
  {
    hide Sorts, Canonical, Escaped;
  }

  // ----- exactly what the text tells -----

  /** The value as its text has it: numbers that JSON cannot express become `null`. */
  function Written(v: Json): Json {
    match v
    case Number(text) => if IsDigitText(text) then v else Null
    case Arr(items) => Arr(WrittenItems(items))
    case Obj(fields) => Obj(map key <- fields :: Written(fields[key]))
    case _ => v
  }

  function WrittenItems(items: seq<Json>): (r: seq<Json>)
    ensures |r| == |items| && forall i | 0 <= i < |items| :: r[i] == Written(items[i])
  {
    if items == [] then [] else [Written(items[0])] + WrittenItems(items[1..])
  }

  function WrittenField(v: Option<Json>): Option<Json> {
    match v
    case None => None
    case Some(value) => Some(Written(value))
  }

  lemma {:induction false} WrittenIsFinite(v: Json)
    ensures FiniteJson(Written(v)) && (FiniteJson(v) ==> Written(v) == v)
  {
    match v
    case Arr(items) =>
      forall i | 0 <= i < |items|
        ensures FiniteJson(Written(items[i])) && (FiniteJson(items[i]) ==> Written(items[i]) == items[i])
      {
        WrittenIsFinite(items[i]);
      }
    case Obj(fields) =>
      forall key <- fields
        ensures FiniteJson(Written(fields[key])) && (FiniteJson(fields[key]) ==> Written(fields[key]) == fields[key])
      {
        WrittenIsFinite(fields[key]);
      }
    case _ =>
  }

  lemma {:induction false} SameText(sorted: set<string> -> seq<string>, v: Json)
    requires Sorts(sorted)
    ensures Canonical(sorted, v) == Canonical(sorted, Written(v))
    decreases v, 1, 0
  {
    match v
    case Arr(items) => SameItems(sorted, items);
    case Obj(fields) =>
      assert Written(v).fields.Keys == fields.Keys;
      assert Lists(sorted(fields.Keys), fields.Keys);
      SameEntries(sorted, v, sorted(fields.Keys));
    case _ =>
  }

  lemma {:induction false} SameItems(sorted: set<string> -> seq<string>, items: seq<Json>)
    requires Sorts(sorted)
    ensures Items(sorted, items) == Items(sorted, WrittenItems(items))
    decreases items, 0, 0
  {
    hide Canonical, Sorts, Written;
    if items != [] {
      SameText(sorted, items[0]);
      SameItems(sorted, items[1..]);
      assert WrittenItems(items)[1..] == WrittenItems(items[1..]);
    }
  }

  lemma {:induction false} SameEntries(sorted: set<string> -> seq<string>, v: Json, keys: seq<string>)
    requires Sorts(sorted) && v.Obj? && (forall key <- keys :: key in v.fields)
    ensures Written(v).fields.Keys == v.fields.Keys
    ensures Entries(sorted, v, keys) == Entries(sorted, Written(v), keys)
    decreases v, 0, 1 + |keys|
  {
    hide Canonical, Sorts;
    if keys != [] {
      SameText(sorted, v.fields[keys[0]]);
      assert Written(v).fields[keys[0]] == Written(v.fields[keys[0]]);
      SameEntries(sorted, v, keys[1..]);
    }
  }

  /** Equal texts of finite values, equal values; `undefined` included. */
  lemma CanonicalIsInjective(sorted: set<string> -> seq<string>, v: Option<Json>, w: Option<Json>)
    requires Sorts(sorted) && (v.Some? ==> FiniteJson(v.value)) && (w.Some? ==> FiniteJson(w.value))
    ensures CanonicalField(sorted, v) == CanonicalField(sorted, w) <==> v == w
  {
    if CanonicalField(sorted, v) == CanonicalField(sorted, w) {
      assert "undefined"[0] == 'u';
      if v.Some? { CanonicalHead(sorted, v.value); }
      if w.Some? { CanonicalHead(sorted, w.value); }
      if v.Some? && w.Some? {
        assert Canonical(sorted, v.value) + "" == Canonical(sorted, w.value) + "";
        CanonicalPrefix(sorted, v.value, w.value, "", "");
      }
    }
  }

  /** Exactly: two values have the same text if and only if they are written alike, for all values. */
  lemma SameTextIffWrittenAlike(sorted: set<string> -> seq<string>, v: Option<Json>, w: Option<Json>)
    requires Sorts(sorted)
    ensures CanonicalField(sorted, v) == CanonicalField(sorted, w) <==> WrittenField(v) == WrittenField(w)
  {
    if v.Some? {
      WrittenIsFinite(v.value);
      SameText(sorted, v.value);
    }
    if w.Some? {
      WrittenIsFinite(w.value);
      SameText(sorted, w.value);
    }
    hide FiniteJson, Canonical, Sorts, Written;
    CanonicalIsInjective(sorted, WrittenField(v), WrittenField(w));
  }

  /** Finiteness matters: an infinity is written, and so prints, as `null`. */
  lemma InfinityCollides(sorted: set<string> -> seq<string>)
    requires Sorts(sorted)
    ensures IsNumberText("Infinity") && Written(Number("Infinity")) == Null
    ensures Canonical(sorted, Number("Infinity")) == Canonical(sorted, Null)
  {
    assert "Infinity"[0] == 'I';
    assert !IsDigitText("Infinity");
  }

  /** Booleans and finite numbers are written as flows show them. */
  lemma WrittenAsShown(sorted: set<string> -> seq<string>, v: Json)
    requires Sorts(sorted) && (v.Bool? || (v.Number? && IsDigitText(v.text)))
    ensures Canonical(sorted, v) == ValueText(Some(v))
  {
  }
}
