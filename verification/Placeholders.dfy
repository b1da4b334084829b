/**
 What `renderFlowText` of packages/contracts/src/flows.ts expands, for every text: its placeholders, from the first one
 on, and nothing else.
 */
module Placeholders {
  import opened Json
  import opened FlowGraph

  predicate NoBrace(key: string) {
    forall c <- key :: c != '{' && c != '}'
  }

  /** At `i` stands a placeholder for `key`, and `after` it the rest of the text. */
  predicate HoleAt(s: string, i: nat, key: string, after: string) {
    i <= |s| && key != "" && NoBrace(key) && s[i..] == "{{" + (key + ("}}" + after))
  }

  /** It is the first one. */
  ghost predicate FirstHole(s: string, i: nat, key: string, after: string) {
    HoleAt(s, i, key, after) && forall j: nat, k, a | j < i :: !HoleAt(s, j, k, a)
  }

  /** What a placeholder gives way to: the value of its trimmed key if that is safe and set, or else nothing. */
  function ValueOf(key: string, variables: map<string, string>): string {
    if SafeKey(Trim(key)) && Trim(key) in variables then variables[Trim(key)] else ""
  }

  lemma {:induction false} RunIsKey(s: string)
    ensures NoBrace(s[..KeyRun(s)])
    ensures KeyRun(s) < |s| ==> s[KeyRun(s)] == '{' || s[KeyRun(s)] == '}'
  {
    if s != "" && s[0] != '{' && s[0] != '}' {
      RunIsKey(s[1..]);
      assert s[..KeyRun(s)] == [s[0]] + s[1..][..KeyRun(s[1..])];
    }
  }

  /** The test at the head of a text finds the placeholder that stands there. */
  lemma HoleIsFound(s: string)
    ensures PlaceholderAt(s) > 0 ==>
      var n := PlaceholderAt(s); HoleAt(s, 0, s[2..n - 2], s[n..])
  {
    var n := PlaceholderAt(s);
    if n > 0 {
      RunIsKey(s[2..]);
      assert s[2..n - 2] == s[2..][..n - 4];
      assert s == "{{" + (s[2..n - 2] + ("}}" + s[n..]));
      assert s[0..] == s;
    }
  }

  lemma HoleIsThere(s: string, key: string, after: string)
    requires HoleAt(s, 0, key, after)
    ensures var n := PlaceholderAt(s); n == |key| + 4 && s[2..n - 2] == key && s[n..] == after
  {
    assert s[0..] == s;
    PlaceholderHere(key, after);
  }

  lemma HoleFurtherOn(s: string, i: nat, key: string, after: string)
    requires s != ""
    ensures HoleAt(s[1..], i, key, after) <==> HoleAt(s, i + 1, key, after)
  {
    if i + 1 <= |s| { assert s[1..][i..] == s[i + 1..]; }
  }

  /** Text without a placeholder stays as it is. */
  lemma {:induction false} TextIsKept(s: string, variables: map<string, string>)
    requires forall i: nat, key, after :: !HoleAt(s, i, key, after)
    ensures Expand(s, variables) == s
  {
    hide HoleAt, PlaceholderAt, SafeKey, Trim;
    if s != "" {
      HoleIsFound(s);
      forall i: nat, key, after ensures !HoleAt(s[1..], i, key, after) { HoleFurtherOn(s, i, key, after); }
      TextIsKept(s[1..], variables);
      assert s == [s[0]] + s[1..];
    }
  }

  lemma FirstFurtherOn(s: string, i: nat, key: string, after: string)
    requires FirstHole(s, i, key, after) && i > 0
    ensures i <= |s| && s != "" && FirstHole(s[1..], i - 1, key, after)
  {
    assert s != "";
    HoleFurtherOn(s, i - 1, key, after);
    hide HoleAt;
    forall j: nat, k, a | j < i - 1 ensures !HoleAt(s[1..], j, k, a) { HoleFurtherOn(s, j, k, a); }
  }

  lemma HoleIsFilled(s: string, key: string, after: string, variables: map<string, string>)
    requires HoleAt(s, 0, key, after)
    ensures Expand(s, variables) == ValueOf(key, variables) + Expand(after, variables)
  {
    HoleIsThere(s, key, after);
    hide PlaceholderAt, SafeKey, Trim;
  }

  lemma NoHoleHere(s: string, variables: map<string, string>)
    requires s != "" && forall key, after :: !HoleAt(s, 0, key, after)
    ensures Expand(s, variables) == [s[0]] + Expand(s[1..], variables)
  {
    HoleIsFound(s);
    hide HoleAt, PlaceholderAt, SafeKey, Trim;
  }

  /** The first placeholder gives way to its value; what follows is expanded in the same way. */
  lemma {:induction false} FirstHoleIsFilled(s: string, i: nat, key: string, after: string,
                                             variables: map<string, string>)
    requires FirstHole(s, i, key, after)
    ensures Expand(s, variables) == s[..i] + ValueOf(key, variables) + Expand(after, variables)
    decreases i
  {
    hide Expand, SafeKey, Trim, ValueOf, HoleAt;
    if i == 0 {
      HoleIsFilled(s, key, after, variables);
    } else {
      FirstFurtherOn(s, i, key, after);
      NoHoleHere(s, variables);
      FirstHoleIsFilled(s[1..], i - 1, key, after, variables);
      assert s[..i] == [s[0]] + s[1..][..i - 1];
      assert [s[0]] + (s[1..][..i - 1] + ValueOf(key, variables) + Expand(after, variables))
        == s[..i] + ValueOf(key, variables) + Expand(after, variables);
    }
  }
}
