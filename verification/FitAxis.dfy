/**
 The layout step of the flow importer (packages/contracts/src/flows.ts): canvas coordinates of an
 imported graph are squeezed onto one axis that runs from `start` to `CAP`.
 Coordinates are exact reals; `finite` says whether the span of the coordinates is representable.
 */
module FitAxis {

  const CAP: int := 100000

  ghost predicate Ascending(s: seq<real>) {
    forall i, j :: 0 <= i < j < |s| ==> s[i] < s[j]
  }

  function Insert(x: real, s: seq<real>): (r: seq<real>)
    requires Ascending(s)
    ensures Ascending(r)
    ensures forall y :: y in r <==> y == x || y in s
  {
    if s == [] || x < s[0] then [x] + s
    else if x == s[0] then s
    else
      var rest := Insert(x, s[1..]);
      assert s == [s[0]] + s[1..];
      assert forall k :: 0 <= k < |rest| ==> rest[k] in rest;
      [s[0]] + rest
  }

  /** The distinct coordinates in ascending order. */
  function Unique(values: seq<real>): (r: seq<real>)
    ensures Ascending(r)
    ensures forall y :: y in r <==> y in values
  {
    if values == [] then [] else Insert(values[0], Unique(values[1..]))
  }

  function Min(a: int, b: int): int { if a <= b then a else b }
  function Max(a: int, b: int): int { if a <= b then b else a }

  /** Math.round: ties go up. */
  function Round(x: real): int { (x + 0.5).Floor }

  function Scale(unique: seq<real>, start: int): real
    requires |unique| > 0 && Ascending(unique)
  {
    var span := unique[|unique| - 1] - unique[0];
    if span > 0.0 then
      var ratio := (CAP - start) as real / span;
      if ratio < 1.0 then ratio else 1.0
    else 0.0
  }

  /** Where a coordinate would land if nothing had to be kept apart. */
  function Projected(unique: seq<real>, finite: bool, start: int, k: nat): real
    requires k < |unique| && Ascending(unique)
  {
    if finite then start as real + (unique[k] - unique[0]) * Scale(unique, start)
    else start as real + (CAP - start) as real * k as real / Max(1, |unique| - 1) as real
  }

  /** What the loop keeps after k + 1 coordinates: each one is pushed to the right of its predecessor. */
  function Fitted(unique: seq<real>, finite: bool, start: int, gap: int, k: nat): int
    requires k < |unique| && Ascending(unique)
  {
    var previous := if k == 0 then start - gap else Fitted(unique, finite, start, gap, k - 1);
    Min(CAP, Max(Round(Projected(unique, finite, start, k)), previous + gap))
  }

  /** The map holds the fitted place of each of the first `count` coordinates, and nothing else. */
  ghost predicate Holds(mapped: map<real, int>, unique: seq<real>, finite: bool, start: int, gap: int, count: nat)
    requires count <= |unique| && Ascending(unique)
  {
    && (forall v :: v in mapped <==> v in unique[..count])
    && forall k :: 0 <= k < count ==> unique[k] in mapped && mapped[unique[k]] == Fitted(unique, finite, start, gap, k)
  }

  method Fit(values: seq<real>, finite: bool, start: int, gap: int) returns (mapped: map<real, int>)
    requires gap >= 0 && start <= CAP
    ensures Holds(mapped, Unique(values), finite, start, gap, |Unique(values)|)
    ensures forall v :: v in mapped <==> v in values
    ensures forall v :: v in values ==> start <= mapped[v] <= 100000
    ensures forall v, w :: v in values && w in values && v < w ==> KeptApart(mapped[v], mapped[w], gap)
  {
    hide *;
    var unique := Unique(values);
    mapped := map[];
    var previous := start - gap;
    NothingHeldYet(unique, finite, start, gap);
    var index := 0;
    while index < |unique|
      invariant 0 <= index <= |unique|
      invariant Holds(mapped, unique, finite, start, gap, index)
      invariant previous == if index == 0 then start - gap else Fitted(unique, finite, start, gap, index - 1)
    {
      var projected := Projected(unique, finite, start, index);
      var fitted := Min(CAP, Max(Round(projected), previous + gap));
      FittedStep(unique, finite, start, gap, index, previous);
      OneMoreHolds(mapped, unique, finite, start, gap, index, fitted);
      mapped := mapped[unique[index] := fitted];
      previous := fitted;
      index := index + 1;
    }
    HeldLayout(mapped, values, finite, start, gap);
  }

  lemma NothingHeldYet(unique: seq<real>, finite: bool, start: int, gap: int)
    requires Ascending(unique)
    ensures Holds(map[], unique, finite, start, gap, 0)
  {
  }

  lemma FittedStep(unique: seq<real>, finite: bool, start: int, gap: int, k: nat, previous: int)
    requires k < |unique| && Ascending(unique)
    requires previous == if k == 0 then start - gap else Fitted(unique, finite, start, gap, k - 1)
    ensures Fitted(unique, finite, start, gap, k)
         == Min(CAP, Max(Round(Projected(unique, finite, start, k)), previous + gap))
  {
  }

  lemma OneMoreHolds(mapped: map<real, int>, unique: seq<real>, finite: bool, start: int, gap: int, k: nat, fitted: int)
    requires k < |unique| && Ascending(unique)
    requires Holds(mapped, unique, finite, start, gap, k)
    requires fitted == Fitted(unique, finite, start, gap, k)
    ensures Holds(mapped[unique[k] := fitted], unique, finite, start, gap, k + 1)
  {
    hide Fitted;
    assert unique[..k + 1] == unique[..k] + [unique[k]];
  }

  /** Order is kept, and so is the gap unless the right one sits at the cap. */
  predicate KeptApart(left: int, right: int, gap: int) {
    left <= right && (right >= left + gap || right == CAP)
  }

  lemma HeldLayout(mapped: map<real, int>, values: seq<real>, finite: bool, start: int, gap: int)
    requires gap >= 0 && start <= CAP
    requires Holds(mapped, Unique(values), finite, start, gap, |Unique(values)|)
    ensures forall v :: v in mapped <==> v in values
    ensures forall v :: v in values ==> start <= mapped[v] <= 100000
    ensures forall v, w :: v in values && w in values && v < w ==> KeptApart(mapped[v], mapped[w], gap)
  {
    hide Fitted, Unique;
    var unique := Unique(values);
    assert unique[..|unique|] == unique;
    forall v | v in values ensures start <= mapped[v] <= CAP {
      var k :| 0 <= k < |unique| && unique[k] == v;
      FittedIsInRange(unique, finite, start, gap, k);
    }
    forall v, w | v in values && w in values && v < w ensures KeptApart(mapped[v], mapped[w], gap) {
      var j :| 0 <= j < |unique| && unique[j] == v;
      var k :| 0 <= k < |unique| && unique[k] == w;
      FittedKeepsOrder(unique, finite, start, gap, j, k);
    }
  }

  lemma {:induction false} FittedIsInRange(unique: seq<real>, finite: bool, start: int, gap: int, k: nat)
    requires k < |unique| && Ascending(unique) && gap >= 0 && start <= CAP
    ensures start <= Fitted(unique, finite, start, gap, k) <= CAP
  {
    if k > 0 { FittedIsInRange(unique, finite, start, gap, k - 1); }
  }

  /** Order survives, and only the cap can bring two coordinates closer than the gap. */
  lemma {:induction false} FittedKeepsOrder(unique: seq<real>, finite: bool, start: int, gap: int, j: nat, k: nat)
    requires j < k < |unique| && Ascending(unique) && gap >= 0
    ensures KeptApart(Fitted(unique, finite, start, gap, j), Fitted(unique, finite, start, gap, k), gap)
  {
    if j < k - 1 { FittedKeepsOrder(unique, finite, start, gap, j, k - 1); }
  }

  /** A chain that starts at some coordinate's own projection and then advances by whole gaps. */
  function Chain(unique: seq<real>, finite: bool, start: int, gap: int, j: nat, k: nat): int
    requires j <= k < |unique| && Ascending(unique)
  {
    Max(Round(Projected(unique, finite, start, j)), start) + (k - j) * gap
  }

  /** The loop computes a maximum over chains, cut at the cap. */
  lemma {:induction false} FittedIsTheLongestChain(unique: seq<real>, finite: bool, start: int, gap: int, k: nat)
    requires k < |unique| && Ascending(unique) && gap >= 0 && start <= CAP
    ensures forall j :: 0 <= j <= k ==>
      Fitted(unique, finite, start, gap, k) >= Min(CAP, Chain(unique, finite, start, gap, j, k))
    ensures exists j ::
      0 <= j <= k && Fitted(unique, finite, start, gap, k) == Min(CAP, Chain(unique, finite, start, gap, j, k))
  {
    if k == 0 {
      assert Fitted(unique, finite, start, gap, k) == Min(CAP, Chain(unique, finite, start, gap, 0, k));
    } else {
      FittedIsInRange(unique, finite, start, gap, k - 1);
      FittedIsTheLongestChain(unique, finite, start, gap, k - 1);
      forall j | 0 <= j < k
        ensures Chain(unique, finite, start, gap, j, k) == Chain(unique, finite, start, gap, j, k - 1) + gap
      {
        assert (k - j) * gap == (k - 1 - j) * gap + gap;
      }
      var i :| 0 <= i <= k - 1 &&
        Fitted(unique, finite, start, gap, k - 1) == Min(CAP, Chain(unique, finite, start, gap, i, k - 1));
      var best := if Round(Projected(unique, finite, start, k)) >= Fitted(unique, finite, start, gap, k - 1) + gap
        then k else i;
      assert Chain(unique, finite, start, gap, k, k) == Max(Round(Projected(unique, finite, start, k)), start);
      assert Fitted(unique, finite, start, gap, k) == Min(CAP, Chain(unique, finite, start, gap, best, k));
    }
  }

  /** Two neighbouring coordinates are merged exactly when a chain had already reached the cap. */
  lemma MergedIff(unique: seq<real>, finite: bool, start: int, gap: int, k: nat)
    requires k + 1 < |unique| && Ascending(unique) && gap > 0 && start <= CAP
    ensures Fitted(unique, finite, start, gap, k) == Fitted(unique, finite, start, gap, k + 1)
       <==> exists j :: 0 <= j <= k && Chain(unique, finite, start, gap, j, k) >= CAP
  {
    FittedIsTheLongestChain(unique, finite, start, gap, k);
    FittedIsInRange(unique, finite, start, gap, k);
    FittedKeepsOrder(unique, finite, start, gap, k, k + 1);
    FittedIsInRange(unique, finite, start, gap, k + 1);
  }

  /** The layout is the tightest one: any other that respects projections and gaps lies to its right. */
  lemma {:induction false} FittedIsLeast(unique: seq<real>, finite: bool, start: int, gap: int, other: seq<int>, k: nat)
    requires k < |unique| == |other| && Ascending(unique)
    requires other[0] >= Min(CAP, start)
    requires forall i :: 0 <= i < |other| ==> other[i] >= Min(CAP, Round(Projected(unique, finite, start, i)))
    requires forall i :: 0 < i < |other| ==> other[i] >= Min(CAP, other[i - 1] + gap)
    ensures Fitted(unique, finite, start, gap, k) <= other[k]
  {
    if k > 0 { FittedIsLeast(unique, finite, start, gap, other, k - 1); }
  }

  /** Whole coordinates that already fit and already keep the gap are only translated. */
  lemma {:induction false} RoomyLayoutIsOnlyMoved(unique: seq<real>, start: int, gap: int, k: nat)
    requires k < |unique| && Ascending(unique) && gap >= 0 && start <= CAP
    requires forall i :: 0 <= i < |unique| ==> unique[i].Floor as real == unique[i]
    requires forall i :: 0 < i < |unique| ==> unique[i] >= unique[i - 1] + gap as real
    requires unique[|unique| - 1] - unique[0] <= (CAP - start) as real
    ensures Fitted(unique, true, start, gap, k) == start + unique[k].Floor - unique[0].Floor
  {
    hide Projected, Ascending, Round;
    RoomyProjection(unique, start, k);
    if k > 0 { RoomyLayoutIsOnlyMoved(unique, start, gap, k - 1); }
  }

  lemma RoomyProjection(unique: seq<real>, start: int, k: nat)
    requires k < |unique| && Ascending(unique) && start <= CAP
    requires forall i :: 0 <= i < |unique| ==> unique[i].Floor as real == unique[i]
    requires unique[|unique| - 1] - unique[0] <= (CAP - start) as real
    ensures Round(Projected(unique, true, start, k)) == start + unique[k].Floor - unique[0].Floor <= CAP
  {
    hide Scale;
    if k > 0 {
      ScaleIsOne(unique, start);
      assert unique[k] <= unique[|unique| - 1];
    }
    assert (unique[k] - unique[0]) * Scale(unique, start) == unique[k] - unique[0];
  }

  lemma QuotientIsAtLeastOne(room: real, span: real)
    requires 0.0 < span <= room
    ensures room / span >= 1.0
  {
  }

  lemma ScaleIsOne(unique: seq<real>, start: int)
    requires |unique| > 1 && Ascending(unique)
    requires unique[|unique| - 1] - unique[0] <= (CAP - start) as real
    ensures Scale(unique, start) == 1.0
  {
    var span := unique[|unique| - 1] - unique[0];
    assert span > 0.0;
    var room := (CAP - start) as real;
    QuotientIsAtLeastOne(room, span);
  }

  /** The cap does merge distinct coordinates of an ordinary imported canvas. */
  lemma DistinctCoordinatesMayMerge()
    ensures Unique([0.0, 199999.0, 200000.0]) == [0.0, 199999.0, 200000.0]
    ensures var u := [0.0, 199999.0, 200000.0];
      Fitted(u, true, 60, 200, 1) == Fitted(u, true, 60, 200, 2) == CAP
  {
    var u := [0.0, 199999.0, 200000.0];
    assert Insert(200000.0, []) == [200000.0];
    assert Insert(199999.0, [200000.0]) == [199999.0, 200000.0];
    assert [0.0, 199999.0, 200000.0][1..] == [199999.0, 200000.0];
    assert [199999.0, 200000.0][1..] == [200000.0];
    assert [200000.0][1..] == [];
    assert Unique([200000.0]) == [200000.0];
    assert Unique([199999.0, 200000.0]) == [199999.0, 200000.0];
    assert Scale(u, 60) == 99940.0 / 200000.0 == 0.4997;
    assert Projected(u, true, 60, 1) == 99999.5003;
    assert Round(Projected(u, true, 60, 1)) == CAP;
  }

  // ----- where coordinates are projected -----

  lemma QuotientTimesDivisor(a: real, b: real, u: real)
    requires b > 0.0
    ensures (u * (a / b)) * b == u * a
  {
    var q := a / b;
    assert q * b == a;
    assert (u * q) * b == u * (q * b);
  }

  /** Finite coordinates are only moved if they fit, and scaled down to the width of the axis if not. */
  lemma ProjectionIsProportional(unique: seq<real>, start: int, k: nat)
    requires k < |unique| && Ascending(unique) && start <= 100000
    ensures var span, room := unique[|unique| - 1] - unique[0], (100000 - start) as real;
      var moved := Projected(unique, true, start, k) - start as real;
      if span <= room then moved == unique[k] - unique[0] else moved * span == (unique[k] - unique[0]) * room
  {
    var span, room := unique[|unique| - 1] - unique[0], (CAP - start) as real;
    if |unique| > 1 && span <= room {
      ScaleIsOne(unique, start);
    } else if span > room {
      assert |unique| > 1;
      QuotientIsSmall(room, span);
      QuotientTimesDivisor(room, span, unique[k] - unique[0]);
    }
  }

  lemma QuotientIsSmall(room: real, span: real)
    requires 0.0 <= room < span
    ensures room / span < 1.0
  {
  }

  /** If their span overflows, coordinates are spread evenly over the axis instead. */
  lemma ProjectionIsEven(unique: seq<real>, start: int, k: nat)
    requires k < |unique| && Ascending(unique) && |unique| > 1
    ensures (Projected(unique, false, start, k) - start as real) * (|unique| - 1) as real
         == ((100000 - start) * k) as real
  {
    var n := (|unique| - 1) as real;
    var a := (CAP - start) as real * k as real;
    QuotientTimesDivisor(a, n, 1.0);
  }

  /** The nearest whole number, and the upper one of two. */
  lemma RoundIsNearest(x: real)
    ensures Round(x) as real - 0.5 <= x < Round(x) as real + 0.5
  {
  }
}
