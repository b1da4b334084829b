/**
 The check digits of packages/contracts/src/automation-input.ts: the modulo-11 loop over a normalized CPF or CNPJ, and
 how much a mistyped character can hide from it.
 */
module CheckDigits {

  /** Character codes minus 48: digits are 0-9, the letters of a CNPJ 17-42. */
  type Code = seq<nat>

  datatype Document = Cpf | Cnpj

  function Base(d: Document): nat {
    if d == Cpf then 9 else 12
  }

  /** The weight of position `i` when the digit at `length` is checked. */
  function Weight(d: Document, length: nat, i: nat): nat
    requires i < length
  {
    if d == Cpf then length + 1 - i else (length - 1 - i) % 8 + 2
  }

  function WeightedSum(d: Document, code: Code, length: nat, k: nat): nat
    requires k <= length <= |code|
  {
    if k == 0 then 0 else WeightedSum(d, code, length, k - 1) + code[k - 1] * Weight(d, length, k - 1)
  }

  function Digit(sum: nat): (d: nat)
    ensures d < 10
  {
    if sum % 11 < 2 then 0 else 11 - sum % 11
  }

  function Expected(d: Document, code: Code, length: nat): nat
    requires length <= |code|
  {
    Digit(WeightedSum(d, code, length, length))
  }

  /** Both check digits are the expected ones. */
  predicate Accepted(d: Document, code: Code) {
    && |code| == Base(d) + 2
    && code[Base(d)] == Expected(d, code, Base(d))
    && code[Base(d) + 1] == Expected(d, code, Base(d) + 1)
  }

  /** The nested loops of the source. */
  method Check(d: Document, code: Code) returns (ok: bool)
    requires |code| == Base(d) + 2
    ensures ok <==> Accepted(d, code)
  {
    for digit := 0 to 2
      invariant digit >= 1 ==> code[Base(d)] == Expected(d, code, Base(d))
      invariant digit >= 2 ==> code[Base(d) + 1] == Expected(d, code, Base(d) + 1)
    {
      var length := Base(d) + digit;
      var sum := 0;
      for index := 0 to length
        invariant sum == WeightedSum(d, code, length, index)
      {
        sum := sum + code[index] * Weight(d, length, index);
      }
      var remainder := sum % 11;
      var expected := if remainder < 2 then 0 else 11 - remainder;
      if code[length] != expected { return false; }
    }
    return true;
  }

  // ----- what the digits are -----

  /** The digit completes the sum to a multiple of 11; where that would take 10, it is 0. */
  predicate Completes(sum: nat, digit: nat) {
    digit < 10 && ((sum + digit) % 11 == 0 || (sum % 11 == 1 && digit == 0))
  }

  lemma DigitCompletes(sum: nat, digit: nat)
    ensures Completes(sum, digit) <==> digit == Digit(sum)
  {
    var q, r := sum / 11, sum % 11;
    assert sum == 11 * q + r;
    if r + digit < 11 {
      assert (sum + digit) % 11 == r + digit by { Remainder11(q, r + digit); }
    } else if r + digit < 22 {
      assert (sum + digit) % 11 == r + digit - 11 by { Remainder11(q + 1, r + digit - 11); }
    }
  }

  lemma Remainder11(q: nat, r: nat)
    requires r < 11
    ensures (11 * q + r) % 11 == r
  {
  }

  /** A CPF is accepted exactly if each of its last two digits completes the weighted sum of what stands before it. */
  lemma CpfAcceptedIff(c: Code)
    ensures Accepted(Cpf, c) <==>
      && |c| == 11
      && Completes(c[0] * 10 + c[1] * 9 + c[2] * 8 + c[3] * 7 + c[4] * 6 + c[5] * 5 + c[6] * 4 + c[7] * 3 + c[8] * 2,
                   c[9])
      && Completes(c[0] * 11 + c[1] * 10 + c[2] * 9 + c[3] * 8 + c[4] * 7 + c[5] * 6 + c[6] * 5 + c[7] * 4 + c[8] * 3
                     + c[9] * 2,
                   c[10])
  {
    hide Completes, Digit;
    if |c| == 11 {
      CpfSums(c);
      DigitCompletes(WeightedSum(Cpf, c, 9, 9), c[9]);
      DigitCompletes(WeightedSum(Cpf, c, 10, 10), c[10]);
      hide WeightedSum;
    }
  }

  lemma OneMore(d: Document, c: Code, length: nat, k: nat)
    requires k < length <= |c|
    ensures WeightedSum(d, c, length, k + 1) == WeightedSum(d, c, length, k) + c[k] * Weight(d, length, k)
    ensures WeightedSum(d, c, length, 0) == 0
  {
  }

  lemma ThreeMore(d: Document, c: Code, length: nat, k: nat)
    requires k + 3 <= length <= |c|
    ensures WeightedSum(d, c, length, k + 3) == WeightedSum(d, c, length, k)
      + c[k] * Weight(d, length, k) + c[k + 1] * Weight(d, length, k + 1) + c[k + 2] * Weight(d, length, k + 2)
    ensures WeightedSum(d, c, length, 0) == 0
  {
    hide Weight;
    OneMore(d, c, length, k);
    OneMore(d, c, length, k + 1);
    OneMore(d, c, length, k + 2);
  }

  lemma CpfSums(c: Code)
    requires |c| == 11
    ensures WeightedSum(Cpf, c, 9, 9) ==
      c[0] * 10 + c[1] * 9 + c[2] * 8 + c[3] * 7 + c[4] * 6 + c[5] * 5 + c[6] * 4 + c[7] * 3 + c[8] * 2
    ensures WeightedSum(Cpf, c, 10, 10) ==
      c[0] * 11 + c[1] * 10 + c[2] * 9 + c[3] * 8 + c[4] * 7 + c[5] * 6 + c[6] * 5 + c[7] * 4 + c[8] * 3 + c[9] * 2
  {
    hide WeightedSum;
    ThreeMore(Cpf, c, 9, 0);
    ThreeMore(Cpf, c, 9, 3);
    ThreeMore(Cpf, c, 9, 6);
    ThreeMore(Cpf, c, 10, 0);
    ThreeMore(Cpf, c, 10, 3);
    ThreeMore(Cpf, c, 10, 6);
    OneMore(Cpf, c, 10, 9);
  }

  /** A CNPJ likewise, with weights that run from 2 to 9 and start again, counted from the right. */
  lemma CnpjAcceptedIff(c: Code)
    ensures Accepted(Cnpj, c) <==>
      && |c| == 14
      && Completes(c[0] * 5 + c[1] * 4 + c[2] * 3 + c[3] * 2 + c[4] * 9 + c[5] * 8 + c[6] * 7 + c[7] * 6 + c[8] * 5
                     + c[9] * 4 + c[10] * 3 + c[11] * 2,
                   c[12])
      && Completes(c[0] * 6 + c[1] * 5 + c[2] * 4 + c[3] * 3 + c[4] * 2 + c[5] * 9 + c[6] * 8 + c[7] * 7 + c[8] * 6
                     + c[9] * 5 + c[10] * 4 + c[11] * 3 + c[12] * 2,
                   c[13])
  {
    hide Completes, Digit;
    if |c| == 14 {
      CnpjFirstSum(c);
      CnpjSecondSum(c);
      DigitCompletes(WeightedSum(Cnpj, c, 12, 12), c[12]);
      DigitCompletes(WeightedSum(Cnpj, c, 13, 13), c[13]);
      hide WeightedSum;
    }
  }

  lemma CnpjFirstSum(c: Code)
    requires |c| == 14
    ensures WeightedSum(Cnpj, c, 12, 12) ==
      c[0] * 5 + c[1] * 4 + c[2] * 3 + c[3] * 2 + c[4] * 9 + c[5] * 8 + c[6] * 7 + c[7] * 6 + c[8] * 5 + c[9] * 4
      + c[10] * 3 + c[11] * 2
  {
    hide WeightedSum;
    assert WeightedSum(Cnpj, c, 12, 6) ==
      c[0] * 5 + c[1] * 4 + c[2] * 3 + c[3] * 2 + c[4] * 9 + c[5] * 8 by {
      ThreeMore(Cnpj, c, 12, 0);
      ThreeMore(Cnpj, c, 12, 3);
    }
    ThreeMore(Cnpj, c, 12, 6);
    ThreeMore(Cnpj, c, 12, 9);
  }

  lemma CnpjSecondSum(c: Code)
    requires |c| == 14
    ensures WeightedSum(Cnpj, c, 13, 13) ==
      c[0] * 6 + c[1] * 5 + c[2] * 4 + c[3] * 3 + c[4] * 2 + c[5] * 9 + c[6] * 8 + c[7] * 7 + c[8] * 6 + c[9] * 5
      + c[10] * 4 + c[11] * 3 + c[12] * 2
  {
    hide WeightedSum;
    assert WeightedSum(Cnpj, c, 13, 6) ==
      c[0] * 6 + c[1] * 5 + c[2] * 4 + c[3] * 3 + c[4] * 2 + c[5] * 9 by {
      ThreeMore(Cnpj, c, 13, 0);
      ThreeMore(Cnpj, c, 13, 3);
    }
    ThreeMore(Cnpj, c, 13, 6);
    ThreeMore(Cnpj, c, 13, 9);
    OneMore(Cnpj, c, 13, 12);
  }

  // ----- exactly one pair of check digits -----

  lemma {:induction false} SumIgnoresTail(d: Document, a: Code, b: Code, length: nat, k: nat)
    requires k <= length <= |a| && length <= |b| && a[..length] == b[..length]
    ensures WeightedSum(d, a, length, k) == WeightedSum(d, b, length, k)
  {
    if k > 0 {
      SumIgnoresTail(d, a, b, length, k - 1);
      assert a[k - 1] == a[..length][k - 1] && b[k - 1] == b[..length][k - 1];
    }
  }

  /** The one completion of a base. */
  function Complete(d: Document, base: Code): (code: Code)
    requires |base| == Base(d)
    ensures |code| == Base(d) + 2 && code[..Base(d)] == base
  {
    var first := base + [Expected(d, base, Base(d))];
    first + [Expected(d, first, Base(d) + 1)]
  }

  lemma OnePairOfDigits(d: Document, base: Code, first: nat, second: nat)
    requires |base| == Base(d)
    ensures Accepted(d, base + [first, second]) <==> base + [first, second] == Complete(d, base)
  {
    var n := Base(d);
    var code := base + [first, second];
    var one := base + [Expected(d, base, n)];
    assert code[..n] == base[..n];
    SumIgnoresTail(d, code, base, n, n);
    assert Complete(d, base)[n] == one[n] && Complete(d, base)[n + 1] == Expected(d, one, n + 1);
    if first == one[n] {
      assert code[..n + 1] == one[..n + 1];
      SumIgnoresTail(d, code, one, n + 1, n + 1);
      assert code == Complete(d, base) <==> second == Expected(d, one, n + 1);
    }
  }

  // ----- a single wrong character -----

  /** `b` is `a` with another character at `at`. */
  ghost predicate DiffersAt(a: Code, b: Code, at: nat) {
    at < |a| == |b| && a[at] != b[at] && forall i | 0 <= i < |a| && i != at :: a[i] == b[i]
  }

  /** How far the character has moved. */
  function Shift(a: Code, b: Code, at: nat): int
    requires at < |a| && at < |b|
  {
    (b[at] as int) - (a[at] as int)
  }

  lemma ProductsDiffer(x: int, y: int, w: int)
    ensures y * w - x * w == (y - x) * w
  {
  }

  lemma {:induction false} SumShifts(d: Document, a: Code, b: Code, at: nat, length: nat, k: nat)
    requires k <= length <= |a| && |a| == |b| && DiffersAt(a, b, at)
    ensures (WeightedSum(d, b, length, k) as int) - WeightedSum(d, a, length, k) ==
      if at < k then Shift(a, b, at) * Weight(d, length, at) else 0
  {
    if k > 0 {
      SumShifts(d, a, b, at, length, k - 1);
      ProductsDiffer(a[k - 1], b[k - 1], Weight(d, length, k - 1));
    }
  }

  /** Sums with the same check digit: equal modulo 11, or both leaving 0 or 1. */
  predicate SameDigit(s: nat, t: nat) {
    s % 11 == t % 11 || (s % 11 < 2 && t % 11 < 2)
  }

  lemma DigitsCoincideIff(s: nat, t: nat)
    ensures Digit(s) == Digit(t) <==> SameDigit(s, t)
  {
  }

  lemma SamePrefix(a: Code, b: Code, at: nat, k: nat)
    requires DiffersAt(a, b, at) && k <= at
    ensures a[..k] == b[..k]
  {
  }

  /** A wrong check digit is always noticed. */
  lemma WrongCheckDigitIsNoticed(d: Document, a: Code, b: Code, at: nat)
    requires Accepted(d, a) && DiffersAt(a, b, at) && at >= Base(d)
    ensures !Accepted(d, b)
  {
    SamePrefix(a, b, at, at);
    SumIgnoresTail(d, a, b, at, at);
  }

  /** A sum that leaves `r` modulo 11 keeps its check digit when it moves by `delta`. */
  predicate Stays(r: int, delta: int) {
    delta % 11 == 0 || (r == 0 && delta % 11 == 1) || (r == 1 && delta % 11 == 10)
  }

  lemma SameDigitIffStays(s: nat, t: nat, delta: int)
    requires (t as int) - s == delta
    ensures SameDigit(s, t) <==> Stays(s % 11, delta)
  {
  }

  lemma ResidueOfProduct(delta: int, w: int)
    ensures (delta * w) % 11 == (delta % 11 * w) % 11
  {
    assert delta * w == delta % 11 * w + 11 * (delta / 11 * w);
    ModuloIgnores(delta % 11 * w, delta / 11 * w);
  }

  lemma ModuloIgnores(x: int, k: int)
    ensures (x + 11 * k) % 11 == x % 11
  {
  }

  /** What the first `length` characters leave modulo 11. */
  function Remainder(d: Document, code: Code, length: nat): (r: nat)
    requires length <= |code|
    ensures r < 11
  {
    WeightedSum(d, code, length, length) % 11
  }

  lemma ExpectedStaysIff(d: Document, a: Code, b: Code, at: nat, length: nat)
    requires DiffersAt(a, b, at) && at < length <= |a|
    ensures Expected(d, a, length) == Expected(d, b, length)
       <==> Stays(Remainder(d, a, length), Shift(a, b, at) % 11 * Weight(d, length, at))
  {
    var delta, w := Shift(a, b, at), Weight(d, length, at);
    SumShifts(d, a, b, at, length, length);
    DigitsCoincideIff(WeightedSum(d, a, length, length), WeightedSum(d, b, length, length));
    SameDigitIffStays(WeightedSum(d, a, length, length), WeightedSum(d, b, length, length), delta * w);
    ResidueOfProduct(delta, w);
  }

  /**
   Exactly when a wrong character goes unnoticed: it is in the base, and both sums, by their remainders in the original,
   stay where they are. `residue` is how far the character has moved modulo 11.
   */
  lemma UnnoticedIff(d: Document, a: Code, b: Code, at: nat)
    requires Accepted(d, a) && DiffersAt(a, b, at)
    ensures var n, residue := Base(d), Shift(a, b, at) % 11;
      Accepted(d, b) <==>
      && at < n
      && Stays(Remainder(d, a, n), residue * Weight(d, n, at))
      && Stays(Remainder(d, a, n + 1), residue * Weight(d, n + 1, at))
  {
    var n := Base(d);
    if at >= n {
      WrongCheckDigitIsNoticed(d, a, b, at);
    } else {
      ExpectedStaysIff(d, a, b, at, n);
      ExpectedStaysIff(d, a, b, at, n + 1);
      hide Expected, Stays, Remainder, WeightedSum;
    }
  }

  /** Neighbouring weights let a residue stay only around 5, and at 10. */
  lemma NeighboursStay(residue: int, w: int, r: nat, r': nat)
    requires 1 <= residue <= 10 && 2 <= w <= 10 && r < 11 && r' < 11
    ensures Stays(r, residue * w) && Stays(r', residue * (w + 1)) <==>
      || (w == 10 && ((r == 0 && residue == 10) || (r == 1 && residue == 1)))
      || (w == 5 && ((r == 1 && r' == 0 && residue == 2) || (r == 0 && r' == 1 && residue == 9)))
  {
    if residue == 1 {} else if residue == 2 {} else if residue == 3 {} else if residue == 4 {} else if residue == 5 {}
    else if residue == 6 {} else if residue == 7 {} else if residue == 8 {} else if residue == 9 {}
  }

  /** In a CNPJ the weights start over between index 4 and 5 of one sum. */
  lemma WrapStays(residue: int, r: nat, r': nat)
    requires 1 <= residue <= 10 && r < 11 && r' < 11
    ensures Stays(r, residue * 9) && Stays(r', residue * 2) <==>
      (r == 0 && r' == 1 && residue == 5) || (r == 1 && r' == 0 && residue == 6)
  {
    if residue == 1 {} else if residue == 2 {} else if residue == 3 {} else if residue == 4 {} else if residue == 5 {}
    else if residue == 6 {} else if residue == 7 {} else if residue == 8 {} else if residue == 9 {}
  }

  /**
   A single wrong digit of a CPF goes unnoticed in four cases and no other: the first digit moved by -1 or by 1, or the
   sixth by 2 or by -2 modulo 11, each for one pair of remainders of the original.
   */
  lemma CpfUnnoticedIff(a: Code, b: Code, at: nat)
    requires Accepted(Cpf, a) && DiffersAt(a, b, at) && (forall x <- a :: x < 10) && (forall x <- b :: x < 10)
    ensures var r, r', residue := Remainder(Cpf, a, 9), Remainder(Cpf, a, 10), Shift(a, b, at) % 11;
      Accepted(Cpf, b) <==>
      || (at == 0 && ((r == 0 && residue == 10) || (r == 1 && residue == 1)))
      || (at == 5 && ((r == 1 && r' == 0 && residue == 2) || (r == 0 && r' == 1 && residue == 9)))
  {
    assert |a| == 11;
    hide Accepted, Stays, Remainder;
    UnnoticedIff(Cpf, a, b, at);
    assert a[at] in a && b[at] in b;
    assert -9 <= Shift(a, b, at) <= 9 && Shift(a, b, at) != 0;
    if at < 9 { NeighboursStay(Shift(a, b, at) % 11, 10 - at, Remainder(Cpf, a, 9), Remainder(Cpf, a, 10)); }
  }

  /** A single wrong character of a CNPJ: any multiple of 11, or one of two moves at index 0, 4 or 8. */
  lemma CnpjUnnoticedIff(a: Code, b: Code, at: nat)
    requires Accepted(Cnpj, a) && DiffersAt(a, b, at)
    ensures var r, r', residue := Remainder(Cnpj, a, 12), Remainder(Cnpj, a, 13), Shift(a, b, at) % 11;
      Accepted(Cnpj, b) <==>
      || (at < 12 && residue == 0)
      || ((at == 0 || at == 8) && ((r == 1 && r' == 0 && residue == 2) || (r == 0 && r' == 1 && residue == 9)))
      || (at == 4 && ((r == 0 && r' == 1 && residue == 5) || (r == 1 && r' == 0 && residue == 6)))
  {
    assert |a| == 14;
    hide Accepted, Stays, Remainder;
    UnnoticedIff(Cnpj, a, b, at);
    var r, r', residue := Remainder(Cnpj, a, 12), Remainder(Cnpj, a, 13), Shift(a, b, at) % 11;
    if at < 12 {
      if residue == 0 {
        NothingMoves(r);
        NothingMoves(r');
      } else if at == 4 {
        WrapStays(residue, r, r');
      } else {
        assert Weight(Cnpj, 13, at) == Weight(Cnpj, 12, at) + 1;
        NeighboursStay(residue, Weight(Cnpj, 12, at), r, r');
      }
    }
  }

  lemma NothingMoves(r: nat)
    ensures forall w :: Stays(r, 0 * w)
  {
  }

  /** In particular, two accepted CPFs that differ in one digit differ in the first or the sixth. */
  lemma CpfMistakeHidesAtTwoPlaces(a: Code, b: Code, at: nat)
    requires Accepted(Cpf, a) && Accepted(Cpf, b) && DiffersAt(a, b, at)
    requires (forall x <- a :: x < 10) && (forall x <- b :: x < 10)
    ensures at == 0 || at == 5
  {
    CpfUnnoticedIff(a, b, at);
    hide Accepted, Remainder;
  }

  /** Two accepted CNPJs that differ in one character, by no multiple of 11, differ at index 0, 4 or 8. */
  lemma CnpjMistakeHidesAtThreePlaces(a: Code, b: Code, at: nat)
    requires Accepted(Cnpj, a) && Accepted(Cnpj, b) && DiffersAt(a, b, at) && Shift(a, b, at) % 11 != 0
    ensures at == 0 || at == 4 || at == 8
  {
    CnpjUnnoticedIff(a, b, at);
    hide Accepted, Remainder;
  }

  /** Characters a multiple of 11 apart (possible among the letters of a CNPJ) are never told apart. */
  lemma MultiplesOfElevenGoUnnoticed(d: Document, a: Code, b: Code, at: nat)
    requires Accepted(d, a) && DiffersAt(a, b, at) && at < Base(d) && Shift(a, b, at) % 11 == 0
    ensures Accepted(d, b)
  {
    assert |a| == Base(d) + 2;
    hide Accepted, Stays, Remainder;
    UnnoticedIff(d, a, b, at);
    NothingMoves(Remainder(d, a, Base(d)));
    NothingMoves(Remainder(d, a, Base(d) + 1));
  }

  /** Mistakes at both places of a CPF, written out. */
  lemma MistakesDoHide()
    ensures Accepted(Cpf, [6, 5, 2, 4, 7, 0, 6, 9, 0, 0, 5]) && Accepted(Cpf, [5, 5, 2, 4, 7, 0, 6, 9, 0, 0, 5])
    ensures Accepted(Cpf, [6, 9, 3, 3, 1, 2, 1, 1, 6, 0, 0]) && Accepted(Cpf, [6, 9, 3, 3, 1, 4, 1, 1, 6, 0, 0])
  {
    hide Accepted, WeightedSum, Digit, Expected;
    CpfAcceptedIff([6, 5, 2, 4, 7, 0, 6, 9, 0, 0, 5]);
    CpfAcceptedIff([5, 5, 2, 4, 7, 0, 6, 9, 0, 0, 5]);
    CpfAcceptedIff([6, 9, 3, 3, 1, 2, 1, 1, 6, 0, 0]);
    CpfAcceptedIff([6, 9, 3, 3, 1, 4, 1, 1, 6, 0, 0]);
  }
}
