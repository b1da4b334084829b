/** Lists whose items are told one by one, in the order of the places where they are due. */
module Listings {
  /** The stage of a run, the element it is about, and the rule applied to it. */
  datatype Place = Place(stage: nat, element: nat, rule: nat)

  predicate Before(p: Place, q: Place) {
    || p.stage < q.stage
    || (p.stage == q.stage && (p.element < q.element || (p.element == q.element && p.rule < q.rule)))
  }

  predicate NotAfter(p: Place, q: Place) {
    p == q || Before(p, q)
  }

  predicate Within(p: Place, lo: Place, hi: Place) {
    NotAfter(lo, p) && Before(p, hi)
  }

  /** The place `k` rules on. */
  function Later(p: Place, k: nat): Place {
    p.(rule := p.rule + k)
  }

  /** The items are exactly those due from `lo` up to `hi`, at these places and in their order. */
  ghost predicate Listed<T(!new)>(due: (Place, T) -> bool, items: seq<T>, places: seq<Place>, lo: Place, hi: Place) {
    && |places| == |items|
    && (forall k | 0 <= k < |places| :: Within(places[k], lo, hi) && due(places[k], items[k]))
    && (forall i, j | 0 <= i < j < |places| :: Before(places[i], places[j]))
    && (forall p, t | Within(p, lo, hi) && due(p, t) :: p in places)
  }

  lemma NoneListed<T(!new)>(due: (Place, T) -> bool, lo: Place)
    ensures Listed(due, [], [], lo, lo)
  {
  }

  lemma JoinListed<T(!new)>(due: (Place, T) -> bool, xs: seq<T>, ps: seq<Place>, lo: Place, mid: Place, ys: seq<T>,
                            qs: seq<Place>, hi: Place)
    requires Listed(due, xs, ps, lo, mid) && Listed(due, ys, qs, mid, hi) && NotAfter(lo, mid) && NotAfter(mid, hi)
    ensures Listed(due, xs + ys, ps + qs, lo, hi)
  {
    var zs, rs := xs + ys, ps + qs;
    forall k | 0 <= k < |rs| ensures Within(rs[k], lo, hi) && due(rs[k], zs[k]) {
      if k < |ps| {
        assert rs[k] == ps[k] && zs[k] == xs[k];
      } else {
        assert rs[k] == qs[k - |ps|] && zs[k] == ys[k - |ps|];
      }
    }
    forall i, j | 0 <= i < j < |rs| ensures Before(rs[i], rs[j]) {
      if j < |ps| {
        assert Before(ps[i], ps[j]);
      } else if i < |ps| {
        assert Within(ps[i], lo, mid) && Within(qs[j - |ps|], mid, hi);
      } else {
        assert Before(qs[i - |ps|], qs[j - |ps|]);
      }
    }
    forall p, t | Within(p, lo, hi) && due(p, t) ensures p in rs {
      assert Within(p, lo, mid) || Within(p, mid, hi);
    }
  }

  /** Nothing more is due up to a later place. */
  lemma WidenListed<T(!new)>(due: (Place, T) -> bool, xs: seq<T>, ps: seq<Place>, lo: Place, mid: Place, hi: Place)
    requires Listed(due, xs, ps, lo, mid) && NotAfter(mid, hi)
    requires forall p, t | Within(p, mid, hi) :: !due(p, t)
    ensures Listed(due, xs, ps, lo, hi)
  {
    forall p, t | Within(p, lo, hi) && due(p, t) ensures p in ps {
      assert Within(p, lo, mid) || Within(p, mid, hi);
    }
  }

  // ----- runs of rules about one element -----

  /** What the first `k` rules of a run tell. */
  function Told<T>(fails: seq<bool>, items: seq<T>, k: nat): seq<T>
    requires k <= |fails| == |items|
  {
    if k == 0 then [] else Told(fails, items, k - 1) + if fails[k - 1] then [items[k - 1]] else []
  }

  function Spots(fails: seq<bool>, p: Place, k: nat): seq<Place>
    requires k <= |fails|
  {
    if k == 0 then [] else Spots(fails, p, k - 1) + if fails[k - 1] then [Later(p, k - 1)] else []
  }

  /** The rules from `p` on are those of the run. */
  ghost predicate Runs<T(!new)>(due: (Place, T) -> bool, fails: seq<bool>, items: seq<T>, p: Place)
    requires |fails| == |items|
  {
    forall i, t | 0 <= i < |fails| :: due(Later(p, i), t) <==> fails[i] && t == items[i]
  }

  /** One rule, at its own place. */
  lemma OneListed<T(!new)>(due: (Place, T) -> bool, failed: bool, item: T, p: Place)
    requires forall t :: due(p, t) <==> failed && t == item
    ensures Listed(due, if failed then [item] else [], if failed then [p] else [], p, Later(p, 1))
  {
    forall q | Within(q, p, Later(p, 1)) ensures q == p {}
    assert p in [p];
  }

  lemma {:induction false} RulesListed<T(!new)>(due: (Place, T) -> bool, fails: seq<bool>, items: seq<T>, p: Place,
                                                k: nat)
    requires k <= |fails| == |items| && Runs(due, fails, items, p)
    ensures Listed(due, Told(fails, items, k), Spots(fails, p, k), p, Later(p, k))
  {
    hide Listed;
    if k == 0 {
      NoneListed(due, p);
    } else {
      var q := Later(p, k - 1);
      RulesListed(due, fails, items, p, k - 1);
      assert forall t :: due(q, t) <==> fails[k - 1] && t == items[k - 1];
      OneListed(due, fails[k - 1], items[k - 1], q);
      JoinListed(due, Told(fails, items, k - 1), Spots(fails, p, k - 1), p, q,
                 if fails[k - 1] then [items[k - 1]] else [], if fails[k - 1] then [q] else [], Later(q, 1));
    }
  }

  /** A run of rules, and nothing else due before `hi`. */
  lemma RunListed<T(!new)>(due: (Place, T) -> bool, fails: seq<bool>, items: seq<T>, p: Place, hi: Place)
    returns (places: seq<Place>)
    requires |fails| == |items| && Runs(due, fails, items, p) && NotAfter(Later(p, |fails|), hi)
    requires forall q, t | Within(q, Later(p, |fails|), hi) :: !due(q, t)
    ensures Listed(due, Told(fails, items, |fails|), places, p, hi)
  {
    hide Listed, Told, Runs;
    RulesListed(due, fails, items, p, |fails|);
    places := Spots(fails, p, |fails|);
    WidenListed(due, Told(fails, items, |fails|), places, p, Later(p, |fails|), hi);
  }

  lemma {:induction false} ToldOfMore<T>(fails: seq<bool>, items: seq<T>, more: seq<bool>, others: seq<T>, k: nat)
    requires |fails| == |items| && |more| == |others| && k <= |more|
    ensures Told(fails + more, items + others, |fails| + k) == Told(fails, items, |fails|) + Told(more, others, k)
  {
    if k == 0 {
      ToldOfPart(fails, items, more, others, |fails|);
    } else {
      ToldOfMore(fails, items, more, others, k - 1);
      assert (fails + more)[|fails| + k - 1] == more[k - 1] && (items + others)[|fails| + k - 1] == others[k - 1];
    }
  }

  lemma {:induction false} ToldOfPart<T>(fails: seq<bool>, items: seq<T>, more: seq<bool>, others: seq<T>, k: nat)
    requires |fails| == |items| && |more| == |others| && k <= |fails|
    ensures Told(fails + more, items + others, k) == Told(fails, items, k)
  {
    if k > 0 { ToldOfPart(fails, items, more, others, k - 1); }
  }

  lemma ToldOfOne<T>(fails: bool, item: T)
    ensures Told([fails], [item], 1) == if fails then [item] else []
  {
    assert Told([fails], [item], 0) == [];
  }

  lemma ToldOfTwo<T>(first: bool, second: bool, one: T, other: T)
    ensures Told([first, second], [one, other], 2)
         == (if first then [one] else []) + if second then [other] else []
  {
    assert Told([first, second], [one, other], 1) == if first then [one] else [];
  }

  /** Where every rule fails, everything is told. */
  lemma {:induction false} AllAreTold<T>(fails: seq<bool>, items: seq<T>, k: nat)
    requires k <= |fails| == |items| && forall i | 0 <= i < k :: fails[i]
    ensures Told(fails, items, k) == items[..k]
  {
    if k > 0 { AllAreTold(fails, items, k - 1); }
  }

  // ----- one rule for each element of a stage -----

  /** Element by element, the stage has one rule. */
  ghost predicate OnePerElement<T(!new)>(due: (Place, T) -> bool, fails: seq<bool>, items: seq<T>, stage: nat)
    requires |fails| == |items|
  {
    forall i: nat, rule: nat, t | i < |fails| ::
      due(Place(stage, i, rule), t) <==> rule == 0 && fails[i] && t == items[i]
  }

  lemma {:induction false} ElementsListed<T(!new)>(due: (Place, T) -> bool, fails: seq<bool>, items: seq<T>,
                                                   stage: nat, k: nat) returns (places: seq<Place>)
    requires k <= |fails| == |items| && OnePerElement(due, fails, items, stage)
    ensures Listed(due, Told(fails, items, k), places, Place(stage, 0, 0), Place(stage, k, 0))
  {
    hide Listed;
    if k == 0 {
      NoneListed(due, Place(stage, 0, 0));
      places := [];
    } else {
      var p := Place(stage, k - 1, 0);
      var failed, item := fails[k - 1], items[k - 1];
      var earlier := ElementsListed(due, fails, items, stage, k - 1);
      OneListed(due, failed, item, p);
      var own := if failed then [p] else [];
      WidenListed(due, if failed then [item] else [], own, p, Later(p, 1), Place(stage, k, 0));
      JoinListed(due, Told(fails, items, k - 1), earlier, Place(stage, 0, 0), p, if failed then [item] else [], own,
                 Place(stage, k, 0));
      places := earlier + own;
    }
  }

  /** A stage with one rule for the whole graph. */
  lemma GraphRuleListed<T(!new)>(due: (Place, T) -> bool, failed: bool, item: T, stage: nat)
    returns (places: seq<Place>)
    requires forall p: Place, t | p.stage == stage :: due(p, t) <==> p == Place(stage, 0, 0) && failed && t == item
    ensures Listed(due, if failed then [item] else [], places, Place(stage, 0, 0), Place(stage + 1, 0, 0))
  {
    hide Listed;
    var p := Place(stage, 0, 0);
    OneListed(due, failed, item, p);
    places := if failed then [p] else [];
    WidenListed(due, if failed then [item] else [], places, p, Later(p, 1), Place(stage + 1, 0, 0));
  }
}
