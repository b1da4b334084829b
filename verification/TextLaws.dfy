/** What the text helpers of the flow language mean, apart from how they compute it. */
module TextLaws {
  import opened Json

  /** All characters are white space. */
  predicate Spaces(s: string) {
    forall c <- s :: IsSpace(c)
  }

  /** From `i` to `j` is what is left of `s` without the white space at its ends. */
  ghost predicate Window(s: string, i: nat, j: nat) {
    && i <= j <= |s|
    && (forall k | 0 <= k < i :: IsSpace(s[k])) && (forall k | j <= k < |s| :: IsSpace(s[k]))
    && (i < j ==> !IsSpace(s[i]) && !IsSpace(s[j - 1]))
  }

  ghost predicate TrimmedOf(s: string, t: string) {
    exists i: nat, j: nat | Window(s, i, j) :: t == s[i..j]
  }

  lemma {:induction false} TrimStartLaw(s: string) returns (i: nat)
    ensures i <= |s| && TrimStart(s) == s[i..] && forall k | 0 <= k < i :: IsSpace(s[k])
    ensures i < |s| ==> !IsSpace(s[i])
  {
    hide IsSpace;
    if s == "" || !IsSpace(s[0]) {
      i := 0;
    } else {
      var rest := TrimStartLaw(s[1..]);
      i := rest + 1;
      forall k | 0 <= k < i ensures IsSpace(s[k]) { if k > 0 { assert s[k] == s[1..][k - 1]; } }
    }
  }

  lemma {:induction false} TrimEndLaw(s: string) returns (j: nat)
    ensures j <= |s| && TrimEnd(s) == s[..j] && forall k | j <= k < |s| :: IsSpace(s[k])
    ensures j > 0 ==> !IsSpace(s[j - 1])
  {
    hide IsSpace;
    if s == "" || !IsSpace(s[|s| - 1]) {
      j := |s|;
    } else {
      j := TrimEndLaw(s[..|s| - 1]);
      assert s[..|s| - 1][..j] == s[..j];
      forall k | j <= k < |s| ensures IsSpace(s[k]) { if k < |s| - 1 { assert s[k] == s[..|s| - 1][k]; } }
    }
  }

  /** Trimming cuts the white space at both ends, all of it and nothing else. */
  lemma TrimLaw(s: string)
    ensures TrimmedOf(s, Trim(s))
  {
    hide IsSpace;
    var i := TrimStartLaw(s);
    var n := TrimEndLaw(s[i..]);
    var j := i + n;
    assert s[i..][..n] == s[i..j];
    assert Trim(s) == s[i..j] by { hide TrimStart, TrimEnd; }
    forall k | j <= k < |s| ensures IsSpace(s[k]) { assert s[k] == s[i..][k - i]; }
    assert i < j ==> s[j - 1] == s[i..][n - 1];
    assert Window(s, i, j);
  }

  /** Nothing else fits the description. */
  lemma TrimmedIsUnique(s: string, t: string)
    requires TrimmedOf(s, t)
    ensures t == Trim(s)
  {
    TrimLaw(s);
    hide IsSpace, Trim;
  }

  /** Nothing is left exactly of white space. */
  lemma TrimIsEmptyIff(s: string)
    ensures Trim(s) == "" <==> Spaces(s)
  {
    TrimLaw(s);
    hide Trim, IsSpace;
    var i: nat, j: nat :| Window(s, i, j) && Trim(s) == s[i..j];
    if i < j { assert s[i] in s; }
  }

  /** The parts hold no separator, and joined by it they are the text again. */
  lemma {:induction false} SplitLaw(s: string, separator: char)
    ensures forall part <- Split(s, separator) :: separator !in part
    ensures Join(Split(s, separator), [separator]) == s
  {
    if s == "" {
    } else {
      SplitLaw(s[1..], separator);
      var parts, rest := Split(s, separator), Split(s[1..], separator);
      assert s == [s[0]] + s[1..];
      if s[0] == separator {
        assert parts[1..] == rest;
      } else {
        assert parts[1..] == rest[1..] && rest[0] in rest;
        assert forall part <- rest[1..] :: part in rest;
      }
    }
  }

  lemma {:induction false} NonEmptySplits(parts: seq<string>, more: seq<string>)
    ensures NonEmpty(parts + more) == NonEmpty(parts) + NonEmpty(more)
  {
    if parts == [] {
      assert [] + more == more;
    } else {
      NonEmptySplits(parts[1..], more);
      assert (parts + more)[1..] == parts[1..] + more;
      assert NonEmpty(parts + more) == (if parts[0] == "" then [] else [parts[0]]) + NonEmpty(parts[1..] + more);
    }
  }

  /** `part` stands in `s` between separators, or between one of them and an end. */
  predicate StandsIn(s: string, separator: char, part: string, x: string, y: string) {
    && s == x + part + y && separator !in part
    && (x == "" || x[|x| - 1] == separator) && (y == "" || y[0] == separator)
  }

  function Count(s: string, c: char): nat {
    if s == "" then 0 else (if s[0] == c then 1 else 0) + Count(s[1..], c)
  }

  lemma {:induction false} FirstPart(part: string, y: string, separator: char)
    requires separator !in part && (y == "" || y[0] == separator)
    ensures Split(part + y, separator)[0] == part
  {
    if part == "" {
      assert part + y == y;
    } else {
      assert (part + y)[1..] == part[1..] + y && (part + y)[0] == part[0] && part[0] in part;
      assert forall c <- part[1..] :: c in part;
      FirstPart(part[1..], y, separator);
    }
  }

  lemma {:induction false} StandingPart(s: string, separator: char, part: string, x: string, y: string)
    requires StandsIn(s, separator, part, x, y)
    ensures Count(x, separator) < |Split(s, separator)| && Split(s, separator)[Count(x, separator)] == part
    ensures x != "" ==> Count(x, separator) > 0
  {
    if x == "" {
      assert s == part + y;
      FirstPart(part, y, separator);
    } else {
      assert s[1..] == x[1..] + part + y && s[0] == x[0];
      StandingPart(s[1..], separator, part, x[1..], y);
    }
  }

  lemma StandsFurther(c: char, s: string, separator: char, part: string, x: string, y: string)
    requires StandsIn(s, separator, part, x, y) && (x == "" ==> c == separator)
    ensures StandsIn([c] + s, separator, part, [c] + x, y)
  {
    assert [c] + (x + part + y) == ([c] + x) + part + y;
  }

  lemma FirstGrows(c: char, s: string, separator: char, part: string, y: string)
    requires StandsIn(s, separator, part, "", y) && c != separator
    ensures StandsIn([c] + s, separator, [c] + part, "", y)
  {
    assert "" + ([c] + part) + y == [c] + ("" + part + y);
  }

  lemma {:induction false} PartStands(s: string, separator: char, k: nat) returns (x: string, y: string)
    requires k < |Split(s, separator)|
    ensures StandsIn(s, separator, Split(s, separator)[k], x, y) && (x == "" <==> k == 0)
  {
    if s == "" {
      x, y := "", "";
    } else if s[0] == separator && k == 0 {
      x, y := "", s;
    } else {
      hide StandsIn;
      assert s == [s[0]] + s[1..];
      x, y := PartStands(s[1..], separator, if s[0] == separator then k - 1 else k);
      if k == 0 {
        FirstGrows(s[0], s[1..], separator, Split(s[1..], separator)[0], y);
      } else {
        StandsFurther(s[0], s[1..], separator, Split(s, separator)[k], x, y);
        x := [s[0]] + x;
      }
    }
  }

  /** The parts of a text are what stands between separators. */
  lemma PartIff(s: string, separator: char, part: string)
    ensures part in Split(s, separator) <==> exists x, y :: StandsIn(s, separator, part, x, y)
  {
    hide Split, StandsIn, Count;
    if part in Split(s, separator) {
      var k :| 0 <= k < |Split(s, separator)| && Split(s, separator)[k] == part;
      var x, y := PartStands(s, separator, k);
    }
    if x, y :| StandsIn(s, separator, part, x, y) {
      StandingPart(s, separator, part, x, y);
    }
  }
}
