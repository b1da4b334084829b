/**
 The two depth-first searches that both validators run over a graph: `walk`, which collects what the start
 block reaches, and `cycles`, which looks for a cycle that no waiting block interrupts.
 */
module GraphSearch {
  import opened FlowGraph

  // ----- reference definitions: paths over the edges that leave uncut blocks -----

  ghost predicate Link(edges: seq<Edge>, cut: set<string>, a: string, b: string) {
    a !in cut && exists e <- edges :: e.source == a && e.target == b
  }

  ghost predicate IsPath(edges: seq<Edge>, cut: set<string>, p: seq<string>) {
    |p| > 0 && forall i | 0 <= i < |p| - 1 :: Link(edges, cut, p[i], p[i + 1])
  }

  ghost predicate PathBetween(edges: seq<Edge>, cut: set<string>, p: seq<string>, a: string, b: string) {
    IsPath(edges, cut, p) && p[0] == a && p[|p| - 1] == b
  }

  ghost predicate Reaches(edges: seq<Edge>, cut: set<string>, a: string, b: string) {
    exists p :: PathBetween(edges, cut, p, a, b)
  }

  /** Reaches in at least one step. */
  ghost predicate Leads(edges: seq<Edge>, cut: set<string>, a: string, b: string) {
    exists p :: |p| >= 2 && PathBetween(edges, cut, p, a, b)
  }

  ghost predicate CycleFrom(edges: seq<Edge>, cut: set<string>, a: string) {
    exists x :: Reaches(edges, cut, a, x) && Leads(edges, cut, x, x)
  }

  ghost predicate Closed(edges: seq<Edge>, cut: set<string>, s: set<string>) {
    forall x, y | x in s && Link(edges, cut, x, y) :: y in s
  }

  // ----- path algebra -----

  lemma ReachesItself(edges: seq<Edge>, cut: set<string>, a: string)
    ensures Reaches(edges, cut, a, a)
  {
    assert PathBetween(edges, cut, [a], a, a);
  }

  lemma ReachesThenLink(edges: seq<Edge>, cut: set<string>, a: string, b: string, c: string)
    requires Reaches(edges, cut, a, b) && Link(edges, cut, b, c)
    ensures Leads(edges, cut, a, c) && Reaches(edges, cut, a, c)
  {
    var p :| PathBetween(edges, cut, p, a, b);
    assert PathBetween(edges, cut, p + [c], a, c);
  }

  lemma LinkThenReaches(edges: seq<Edge>, cut: set<string>, a: string, b: string, c: string)
    requires Link(edges, cut, a, b) && Reaches(edges, cut, b, c)
    ensures Reaches(edges, cut, a, c)
  {
    var p :| PathBetween(edges, cut, p, b, c);
    var q := [a] + p;
    forall i | 0 <= i < |q| - 1 ensures Link(edges, cut, q[i], q[i + 1]) {
      if i > 0 { assert q[i] == p[i - 1] && q[i + 1] == p[i]; }
    }
    assert PathBetween(edges, cut, q, a, c);
  }

  lemma {:induction false} ClosedKeepsPaths(edges: seq<Edge>, cut: set<string>, s: set<string>, p: seq<string>, i: nat)
    requires Closed(edges, cut, s) && IsPath(edges, cut, p) && p[0] in s && i < |p|
    ensures p[i] in s
  {
    if i > 0 {
      ClosedKeepsPaths(edges, cut, s, p, i - 1);
      assert Link(edges, cut, p[i - 1], p[i]);
    }
  }

  lemma ClosedKeepsReached(edges: seq<Edge>, cut: set<string>, s: set<string>, a: string, b: string)
    requires Closed(edges, cut, s) && a in s && Reaches(edges, cut, a, b)
    ensures b in s
  {
    var p :| PathBetween(edges, cut, p, a, b);
    ClosedKeepsPaths(edges, cut, s, p, |p| - 1);
  }

  // ----- a finishing order: every link leads strictly backwards -----

  ghost predicate Backwards(edges: seq<Edge>, cut: set<string>, order: seq<string>) {
    && (forall i, j | 0 <= i < j < |order| :: order[i] != order[j])
    && (forall i, y | 0 <= i < |order| && Link(edges, cut, order[i], y) :: y in order[..i])
  }

  lemma {:induction false} BackwardsPath(edges: seq<Edge>, cut: set<string>, order: seq<string>, p: seq<string>,
                                         i: nat, k: nat)
    requires Backwards(edges, cut, order) && IsPath(edges, cut, p)
    requires i < |order| && p[0] == order[i] && k < |p|
    ensures k == 0 ==> p[k] == order[i]
    ensures k > 0 ==> p[k] in order[..i]
  {
    if k > 0 {
      BackwardsPath(edges, cut, order, p, i, k - 1);
      assert Link(edges, cut, p[k - 1], p[k]);
      if k > 1 {
        var j :| 0 <= j < i && order[j] == p[k - 1];
        assert p[k] in order[..j];
      }
    }
  }

  /** A finishing order rules out every cycle that one of its members reaches. */
  lemma BackwardsIsAcyclic(edges: seq<Edge>, cut: set<string>, order: seq<string>, a: string)
    requires Backwards(edges, cut, order) && a in order
    ensures !CycleFrom(edges, cut, a)
  {
    if CycleFrom(edges, cut, a) {
      var x :| Reaches(edges, cut, a, x) && Leads(edges, cut, x, x);
      var p :| PathBetween(edges, cut, p, a, x);
      var i :| 0 <= i < |order| && order[i] == a;
      BackwardsPath(edges, cut, order, p, i, |p| - 1);
      var j :| 0 <= j < |order| && order[j] == x;
      var q :| |q| >= 2 && PathBetween(edges, cut, q, x, x);
      BackwardsPath(edges, cut, order, q, j, |q| - 1);
      assert false;
    }
  }

  // ----- the searches -----

  /** The shared sets of one validation, with the edges and the waiting blocks it runs on. */
  class Search {
    const edges: seq<Edge>
    const cut: set<string>
    var reachable: set<string>
    var active: set<string>
    var visited: set<string>
    ghost var order: seq<string>   // finished blocks, in finishing order

    constructor (edges: seq<Edge>, cut: set<string>)
      ensures this.edges == edges && this.cut == cut
      ensures reachable == {} && active == {} && visited == {} && order == []
      ensures Valid()
    {
      this.edges, this.cut := edges, cut;
      reachable, active, visited, order := {}, {}, {}, [];
    }

    /** Finished blocks are the visited ones that are not on the search stack, and link only backwards. */
    ghost predicate Valid()
      reads this
    {
      && active <= visited
      && (forall x :: x in order <==> x in visited - active)
      && Backwards(edges, cut, order)
    }

    /** Blocks known to the graph or named by one of its edges: what a search can still add. */
    ghost function Unseen(seen: set<string>, root: string): set<string> {
      {root} + (set e <- edges :: e.target) - seen
    }

    method Walk(current: string)
      modifies this`reachable
      ensures old(reachable) <= reachable && current in reachable
      ensures forall x | x in reachable - old(reachable) :: Reaches(edges, {}, current, x)
      ensures forall x, y | x in reachable - old(reachable) && Link(edges, {}, x, y) :: y in reachable
      decreases Unseen(reachable, current)
    {
      if current in reachable { return; }
      reachable := reachable + {current};
      ReachesItself(edges, {}, current);
      var i := 0;
      while i < |edges|
        invariant 0 <= i <= |edges|
        invariant old(reachable) + {current} <= reachable
        invariant forall x | x in reachable - old(reachable) :: Reaches(edges, {}, current, x)
        invariant forall x, y | x in reachable - old(reachable) && x != current && Link(edges, {}, x, y) ::
          y in reachable
        invariant forall e <- edges[..i] | e.source == current :: e.target in reachable
      {
        if edges[i].source == current {
          var target := edges[i].target;
          ghost var before := reachable;
          assert edges[i] in edges;
          assert Link(edges, {}, current, target);
          assert current in Unseen(old(reachable), current) && current !in Unseen(reachable, target);
          Walk(target);
          forall x | x in reachable - before ensures Reaches(edges, {}, current, x) {
            LinkThenReaches(edges, {}, current, target, x);
          }
        }
        i := i + 1;
      }
    }

    method Cycles(current: string) returns (found: bool)
      requires Valid()
      requires forall a <- active :: Leads(edges, cut, a, current)
      modifies this`active, this`visited, this`order
      ensures found ==> CycleFrom(edges, cut, current)
      ensures !found ==> Valid() && active == old(active) && current in order
      ensures !found ==> old(visited) <= visited && old(order) <= order
      decreases Unseen(visited, current)
    {
      ReachesItself(edges, cut, current);
      if current in active { return true; }
      if current in visited { return false; }
      visited := visited + {current};
      active := active + {current};
      if current !in cut {
        var i := 0;
        while i < |edges|
          invariant 0 <= i <= |edges|
          invariant Valid() && active == old(active) + {current} && current !in old(active)
          invariant old(visited) + {current} <= visited && old(order) <= order
          invariant forall e <- edges[..i] | e.source == current :: e.target in order
        {
          if edges[i].source == current {
            var target := edges[i].target;
            assert edges[i] in edges;
            assert Link(edges, cut, current, target);
            forall a <- active ensures Leads(edges, cut, a, target) {
              ReachesThenLink(edges, cut, a, current, target);
            }
            assert current in Unseen(old(visited), current) && current !in Unseen(visited, target);
            ghost var before := order;
            var inner := Cycles(target);
            if inner {
              ghost var x :| Reaches(edges, cut, target, x) && Leads(edges, cut, x, x);
              LinkThenReaches(edges, cut, current, target, x);
              return true;
            }
            assert forall x <- before :: x in order;
          }
          i := i + 1;
        }
      }
      active := active - {current};
      FinishLast(current);
      order := order + [current];
      return false;
    }

    /** Finishing `current` keeps the order backwards once all its successors are finished. */
    lemma FinishLast(current: string)
      requires Backwards(edges, cut, order) && current !in order
      requires forall y | Link(edges, cut, current, y) :: y in order
      ensures Backwards(edges, cut, order + [current])
    {
      var longer := order + [current];
      forall i, y | 0 <= i < |longer| && Link(edges, cut, longer[i], y) ensures y in longer[..i] {
        if i < |order| {
          assert longer[..i] == order[..i];
        } else {
          assert longer[..i] == order;
        }
      }
    }
  }

  /** `walk(start)` on a fresh search: exactly what `start` reaches, on every graph. */
  method ReachableFrom(edges: seq<Edge>, start: string) returns (reached: set<string>)
    ensures forall x :: x in reached <==> Reaches(edges, {}, start, x)
  {
    var search := new Search(edges, {});
    search.Walk(start);
    reached := search.reachable;
    forall x | Reaches(edges, {}, start, x) ensures x in reached {
      ClosedKeepsReached(edges, {}, reached, start, x);
    }
  }

  /** `nodes.some(n => cycles(n.id))`: true exactly when a listed block reaches an uninterrupted cycle. */
  method AnyCycle(edges: seq<Edge>, cut: set<string>, ids: seq<string>) returns (found: bool)
    ensures found <==> exists id <- ids :: CycleFrom(edges, cut, id)
  {
    var search := new Search(edges, cut);
    var i := 0;
    while i < |ids|
      invariant 0 <= i <= |ids|
      invariant search.edges == edges && search.cut == cut && fresh(search)
      invariant search.Valid() && search.active == {}
      invariant forall id <- ids[..i] :: id in search.order
    {
      ghost var before := search.order;
      var hit := search.Cycles(ids[i]);
      if hit { return true; }
      assert forall x <- before :: x in search.order;
      i := i + 1;
    }
    forall id <- ids ensures !CycleFrom(edges, cut, id) {
      assert id in ids[..i];
      BackwardsIsAcyclic(edges, cut, search.order, id);
    }
    return false;
  }

  /** When every edge endpoint is a listed block, the answer covers every cycle of the graph. */
  lemma CycleCheckIsComplete(edges: seq<Edge>, cut: set<string>, ids: set<string>)
    requires forall e <- edges :: e.source in ids && e.target in ids
    ensures (exists id <- ids :: CycleFrom(edges, cut, id)) <==> (exists x :: Leads(edges, cut, x, x))
  {
    if x :| Leads(edges, cut, x, x) {
      var p :| |p| >= 2 && PathBetween(edges, cut, p, x, x);
      assert Link(edges, cut, p[0], p[1]);
      assert x in ids;
      ReachesItself(edges, cut, x);
      assert CycleFrom(edges, cut, x);
    }
  }

  /** Without that condition a cycle between two undeclared blocks goes unnoticed. */
  lemma DanglingCycleGoesUnnoticed()
    ensures
      var edges := [Edge("1", "x", "x", "next")];
      Leads(edges, {}, "x", "x") && !CycleFrom(edges, {}, "a")
  {
    var edges := [Edge("1", "x", "x", "next")];
    assert edges[0] in edges;
    assert Link(edges, {}, "x", "x");
    assert PathBetween(edges, {}, ["x", "x"], "x", "x");
    assert "a"[0] != "x"[0];
    assert Closed(edges, {}, {"a"});
    forall x | Reaches(edges, {}, "a", x) ensures !Leads(edges, {}, x, x) {
      ClosedKeepsReached(edges, {}, {"a"}, "a", x);
      if p :| |p| >= 2 && PathBetween(edges, {}, p, x, x) {
        assert Link(edges, {}, p[0], p[1]);
      }
    }
  }
}
