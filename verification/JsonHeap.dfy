/**
 `jsonIssue` of packages/contracts/src/automation-data-v2.ts: whether a JavaScript value, which may share or contain
 itself, is plain JSON of at most 64 levels.
 */
module JsonHeap {
  import opened Wrappers

  type Addr = nat

  /** `Alien` stands for undefined, functions, symbols and big integers. */
  datatype Value = Null | Bool(b: bool) | Str(s: string) | Num(finite: bool) | Alien | Ref(addr: Addr)

  /** An own property: an accessor has no value. */
  datatype Descriptor = Descriptor(enumerable: bool, hasValue: bool, value: Value)

  /**
   An object, or an array with its index properties (`None` at a hole) and its other own properties besides `length`.
   `standard` says that the prototype is the expected one, `symbols` that it has symbol keys.
   */
  datatype Object =
    | Record(standard: bool, symbols: bool, props: seq<Descriptor>)
    | List(standard: bool, symbols: bool, slots: seq<Option<Descriptor>>, extras: seq<Descriptor>)

  type Heap = Addr -> Object

  datatype Issue = TooDeep | InfiniteNumber | NotJson | NotPlain | Holes | NotSimple

  const MAX_DEPTH := 64

  // ----- the rules for one object -----

  function Present(slots: seq<Option<Descriptor>>): seq<Descriptor> {
    if slots == [] then []
    else (match slots[0] case Some(d) => [d] case None => []) + Present(slots[1..])
  }

  function Enumerable(ds: seq<Descriptor>): nat {
    if ds == [] then 0 else (if ds[0].enumerable then 1 else 0) + Enumerable(ds[1..])
  }

  /** The two counts an array is checked by, `Object.keys(descriptors).length` including `length`. */
  predicate ArrayShape(o: Object)
    requires o.List?
  {
    var own := Present(o.slots) + o.extras;
    o.standard && |own| + 1 == |o.slots| + 1 && Enumerable(own) == |o.slots|
  }

  /** Objections to the object itself, before its members are looked at. */
  function ShapeIssue(o: Object): Option<Issue> {
    if o.Record? && !o.standard then Some(NotPlain)
    else if o.symbols then Some(NotJson)
    else if o.List? && !ArrayShape(o) then Some(Holes)
    else None
  }

  function Members(o: Object): seq<Option<Descriptor>> {
    match o
    case List(_, _, slots, _) => slots
    case Record(_, _, props) => seq(|props|, i requires 0 <= i < |props| => Some(props[i]))
  }

  predicate Simple(d: Option<Descriptor>) {
    d.Some? && d.value.enumerable && d.value.hasValue
  }

  // ----- the check -----

  function Check(heap: Heap, v: Value, parents: set<Addr>, depth: nat): Option<Issue>
    requires depth <= MAX_DEPTH + 1
    decreases MAX_DEPTH + 1 - depth, 1, 0
  {
    if depth > MAX_DEPTH then Some(TooDeep)
    else
      match v
      case Null => None
      case Bool(_) => None
      case Str(_) => None
      case Num(finite) => if finite then None else Some(InfiniteNumber)
      case Alien => Some(NotJson)
      case Ref(a) =>
        if a in parents then Some(NotJson)
        else if ShapeIssue(heap(a)).Some? then ShapeIssue(heap(a))
        else CheckMembers(heap, Members(heap(a)), parents + {a}, depth)
  }

  function CheckMembers(heap: Heap, ds: seq<Option<Descriptor>>, parents: set<Addr>, depth: nat): Option<Issue>
    requires depth <= MAX_DEPTH
    decreases MAX_DEPTH + 1 - depth, 0, |ds|
  {
    if ds == [] then None
    else if !Simple(ds[0]) then Some(NotSimple)
    else
      match Check(heap, ds[0].value.value, parents, depth + 1)
      case Some(issue) => Some(issue)
      case None => CheckMembers(heap, ds[1..], parents, depth)
  }

  /** The recursion with its shared set of open objects. */
  class Checker {
    const heap: Heap
    var parents: set<Addr>

    constructor (heap: Heap)
      ensures this.heap == heap && parents == {}
    {
      this.heap := heap;
      parents := {};
    }

    /** Ends on every heap; an accepted value leaves the set of open objects as it was. */
    method JsonIssue(v: Value, depth: nat) returns (issue: Option<Issue>)
      requires depth <= MAX_DEPTH + 1
      modifies this
      ensures issue == Check(heap, v, old(parents), depth)
      ensures issue == None ==> parents == old(parents)
      decreases MAX_DEPTH + 1 - depth
    {
      if depth > MAX_DEPTH { return Some(TooDeep); }
      if v.Null? || v.Str? || v.Bool? { return None; }
      if v.Num? { return if v.finite then None else Some(InfiniteNumber); }
      if v.Alien? || v.addr in parents { return Some(NotJson); }
      var o := heap(v.addr);
      if o.Record? && !o.standard { return Some(NotPlain); }
      if o.symbols { return Some(NotJson); }
      parents := parents + {v.addr};
      if o.List? && !ArrayShape(o) { return Some(Holes); }
      var members := Members(o);
      var at := 0;
      while at < |members|
        invariant 0 <= at <= |members|
        invariant parents == old(parents) + {v.addr}
        invariant CheckMembers(heap, members[at..], parents, depth) == CheckMembers(heap, members, parents, depth)
      {
        assert members[at..][0] == members[at] && members[at..][1..] == members[at + 1..];
        if !Simple(members[at]) { return Some(NotSimple); }
        issue := JsonIssue(members[at].value.value, depth + 1);
        if issue.Some? { return; }
        at := at + 1;
      }
      parents := parents - {v.addr};
      return None;
    }
  }

  // ----- JSON trees -----

  datatype Tree = Leaf(v: Value) | Branch(children: seq<Tree>)

  predicate JsonLeaf(v: Value) {
    v.Null? || v.Bool? || v.Str? || (v.Num? && v.finite)
  }

  /** `t` is what following every reference from `v` unfolds to. */
  ghost predicate Unfolds(heap: Heap, v: Value, t: Tree)
    decreases t
  {
    match t
    case Leaf(w) => v == w && JsonLeaf(v)
    case Branch(children) =>
      && v.Ref? && ShapeIssue(heap(v.addr)).None?
      && var ds := Members(heap(v.addr));
         && |children| == |ds|
         && forall i | 0 <= i < |ds| :: Simple(ds[i]) && Unfolds(heap, ds[i].value.value, children[i])
  }

  function Max(a: nat, b: nat): nat {
    if a >= b then a else b
  }

  /** The deepest level a tree reaches below its root. */
  function Height(t: Tree): nat {
    match t
    case Leaf(_) => 0
    case Branch(children) => HeightAll(children)
  }

  function HeightAll(ts: seq<Tree>): nat {
    if ts == [] then 0 else Max(1 + Height(ts[0]), HeightAll(ts[1..]))
  }

  function Size(t: Tree): nat {
    match t
    case Leaf(_) => 1
    case Branch(children) => 1 + SizeAll(children)
  }

  function SizeAll(ts: seq<Tree>): nat {
    if ts == [] then 0 else Size(ts[0]) + SizeAll(ts[1..])
  }

  lemma {:induction false} ChildIsSmaller(ts: seq<Tree>, i: nat)
    requires i < |ts|
    ensures Size(ts[i]) <= SizeAll(ts) && 1 + Height(ts[i]) <= HeightAll(ts)
  {
    if i > 0 { ChildIsSmaller(ts[1..], i - 1); }
  }

  /** A value has at most one unfolding. */
  lemma {:induction false} UnfoldingIsUnique(heap: Heap, v: Value, t: Tree, u: Tree)
    requires Unfolds(heap, v, t) && Unfolds(heap, v, u)
    ensures t == u
    decreases t
  {
    if t.Branch? {
      forall i | 0 <= i < |t.children| ensures t.children[i] == u.children[i] {
        UnfoldingIsUnique(heap, Members(heap(v.addr))[i].value.value, t.children[i], u.children[i]);
      }
    }
  }

  // ----- accepted values are bounded trees -----

  lemma {:induction false} AcceptedUnfolds(heap: Heap, v: Value, parents: set<Addr>, depth: nat) returns (t: Tree)
    requires depth <= MAX_DEPTH + 1 && Check(heap, v, parents, depth) == None
    ensures Unfolds(heap, v, t) && depth + Height(t) <= MAX_DEPTH
    decreases MAX_DEPTH + 1 - depth, 1, 0
  {
    if v.Ref? {
      var children := AcceptedMembersUnfold(heap, Members(heap(v.addr)), parents + {v.addr}, depth);
      t := Branch(children);
    } else {
      t := Leaf(v);
    }
  }

  lemma {:induction false} AcceptedMembersUnfold(heap: Heap, ds: seq<Option<Descriptor>>, parents: set<Addr>,
                                                 depth: nat)
    returns (ts: seq<Tree>)
    requires depth <= MAX_DEPTH && CheckMembers(heap, ds, parents, depth) == None
    ensures |ts| == |ds| && depth + HeightAll(ts) <= MAX_DEPTH
    ensures forall i | 0 <= i < |ds| :: Simple(ds[i]) && Unfolds(heap, ds[i].value.value, ts[i])
    decreases MAX_DEPTH + 1 - depth, 0, |ds|
  {
    if ds == [] {
      ts := [];
    } else {
      var first := AcceptedUnfolds(heap, ds[0].value.value, parents, depth + 1);
      var rest := AcceptedMembersUnfold(heap, ds[1..], parents, depth);
      ts := [first] + rest;
      assert ts[1..] == rest;
      forall i | 0 <= i < |ds| ensures Simple(ds[i]) && Unfolds(heap, ds[i].value.value, ts[i]) {
        if i > 0 { assert ds[i] == ds[1..][i - 1]; }
      }
    }
  }

  // ----- bounded trees are accepted -----

  /** The open objects all unfold to something larger, so none of them can come back below itself. */
  ghost predicate Above(heap: Heap, parents: set<Addr>, size: nat) {
    forall p <- parents :: exists t :: Unfolds(heap, Ref(p), t) && Size(t) > size
  }

  lemma {:induction false} UnfoldedIsAccepted(heap: Heap, v: Value, t: Tree, parents: set<Addr>, depth: nat)
    requires Unfolds(heap, v, t) && depth + Height(t) <= MAX_DEPTH && Above(heap, parents, Size(t))
    ensures Check(heap, v, parents, depth) == None
    decreases MAX_DEPTH + 1 - depth, 1, 0
  {
    if v.Ref? {
      if v.addr in parents {
        var u :| Unfolds(heap, Ref(v.addr), u) && Size(u) > Size(t);
        UnfoldingIsUnique(heap, v, t, u);
        assert false;
      }
      assert Above(heap, parents + {v.addr}, SizeAll(t.children)) by {
        forall p <- parents + {v.addr} ensures exists u :: Unfolds(heap, Ref(p), u) && Size(u) > SizeAll(t.children) {
          if p == v.addr { assert Unfolds(heap, Ref(p), t); }
        }
      }
      UnfoldedMembersAreAccepted(heap, Members(heap(v.addr)), t.children, parents + {v.addr}, depth);
    }
  }

  lemma {:induction false} UnfoldedMembersAreAccepted(heap: Heap, ds: seq<Option<Descriptor>>, ts: seq<Tree>,
                                                      parents: set<Addr>, depth: nat)
    requires |ts| == |ds| && depth + HeightAll(ts) <= MAX_DEPTH && Above(heap, parents, SizeAll(ts))
    requires forall i | 0 <= i < |ds| :: Simple(ds[i]) && Unfolds(heap, ds[i].value.value, ts[i])
    ensures CheckMembers(heap, ds, parents, depth) == None
    decreases MAX_DEPTH + 1 - depth, 0, |ds|
  {
    if ds != [] {
      UnfoldedIsAccepted(heap, ds[0].value.value, ts[0], parents, depth + 1);
      UnfoldedMembersAreAccepted(heap, ds[1..], ts[1..], parents, depth);
    }
  }

  /**
   On every heap, the check accepts exactly the values that unfold to a finite JSON tree of at most 64 levels. Sharing
   is no objection.
   */
  lemma AcceptsExactlyBoundedTrees(heap: Heap, v: Value)
    ensures Check(heap, v, {}, 0) == None <==> exists t :: Unfolds(heap, v, t) && Height(t) <= 64
  {
    if Check(heap, v, {}, 0) == None { var t := AcceptedUnfolds(heap, v, {}, 0); }
    if t :| Unfolds(heap, v, t) && Height(t) <= MAX_DEPTH { UnfoldedIsAccepted(heap, v, t, {}, 0); }
  }

  // ----- cycles -----

  ghost predicate Holds(heap: Heap, a: Addr, b: Addr) {
    exists d <- Members(heap(a)) :: d.Some? && d.value.value == Ref(b)
  }

  /** A way through the heap along members. */
  ghost predicate IsWay(heap: Heap, way: seq<Addr>) {
    |way| > 0 && forall i | 0 <= i < |way| - 1 :: Holds(heap, way[i], way[i + 1])
  }

  /** Along a way unfoldings only get smaller. */
  lemma {:induction false} WayShrinks(heap: Heap, way: seq<Addr>, t: Tree) returns (u: Tree)
    requires IsWay(heap, way) && Unfolds(heap, Ref(way[0]), t)
    ensures Unfolds(heap, Ref(way[|way| - 1]), u) && (if |way| == 1 then u == t else Size(u) < Size(t))
    decreases |way|
  {
    if |way| == 1 {
      u := t;
    } else {
      var ds := Members(heap(way[0]));
      assert Holds(heap, way[0], way[1]);
      var d :| d in ds && d.Some? && d.value.value == Ref(way[1]);
      var i :| 0 <= i < |ds| && ds[i] == d;
      ChildIsSmaller(t.children, i);
      forall k | 0 <= k < |way[1..]| - 1 ensures Holds(heap, way[1..][k], way[1..][k + 1]) {
        assert Holds(heap, way[k + 1], way[k + 2]);
      }
      u := WayShrinks(heap, way[1..], t.children[i]);
    }
  }

  /** An object that contains itself, however indirectly, is rejected. */
  lemma CyclesAreRejected(heap: Heap, way: seq<Addr>)
    requires IsWay(heap, way) && |way| >= 2 && way[0] == way[|way| - 1]
    ensures Check(heap, Ref(way[0]), {}, 0) != None
  {
    AcceptsExactlyBoundedTrees(heap, Ref(way[0]));
    if t :| Unfolds(heap, Ref(way[0]), t) {
      var u := WayShrinks(heap, way, t);
      UnfoldingIsUnique(heap, Ref(way[0]), t, u);
      assert false;
    }
  }

  /** Two members may be the same object: a pair of references is accepted exactly when one of them is. */
  lemma SharingIsAccepted(heap: Heap, a: Addr, b: Addr)
    requires heap(a) == Record(true, false, [Descriptor(true, true, Ref(b)), Descriptor(true, true, Ref(b))])
    ensures Check(heap, Ref(a), {}, 0) == None <==> exists t :: Unfolds(heap, Ref(b), t) && Height(t) < 64
  {
    AcceptsExactlyBoundedTrees(heap, Ref(a));
    if t :| Unfolds(heap, Ref(b), t) && Height(t) < MAX_DEPTH {
      var both := Branch([t, t]);
      assert [t, t][1..] == [t] && [t][1..] == [];
      assert HeightAll([t]) == 1 + Height(t) && HeightAll([t, t]) == 1 + Height(t);
      assert Unfolds(heap, Ref(a), both) && Height(both) <= MAX_DEPTH;
    }
    if t :| Unfolds(heap, Ref(a), t) && Height(t) <= MAX_DEPTH {
      assert Members(heap(a))[0].value.value == Ref(b);
      assert Unfolds(heap, Ref(b), t.children[0]);
      ChildIsSmaller(t.children, 0);
    }
  }

  // ----- what an acceptable object looks like -----

  predicate PlainProperty(d: Descriptor) {
    d.enumerable && d.hasValue
  }

  /** An own prototype, no symbols, no accessors or hidden properties, no holes, and nothing else in a list. */
  predicate PlainObject(o: Object) {
    && o.standard && !o.symbols
    && match o
       case Record(_, _, props) => forall d <- props :: PlainProperty(d)
       case List(_, _, slots, extras) => extras == [] && forall d <- slots :: d.Some? && PlainProperty(d.value)
  }

  lemma {:induction false} PresentWithoutHoles(slots: seq<Option<Descriptor>>)
    requires forall d <- slots :: d.Some?
    ensures |Present(slots)| == |slots|
    ensures (forall d <- slots :: d.value.enumerable) <==> Enumerable(Present(slots)) == |slots|
    ensures Enumerable(Present(slots)) <= |slots|
  {
    if slots != [] {
      assert slots == [slots[0]] + slots[1..] && slots[0] in slots;
      assert forall d <- slots[1..] :: d in slots;
      PresentWithoutHoles(slots[1..]);
      var rest := Present(slots[1..]);
      assert Present(slots) == [slots[0].value] + rest;
      assert ([slots[0].value] + rest)[1..] == rest;
    }
  }

  /** The counts and the rules for members together admit exactly the plain objects. */
  lemma ObjectIsPlainIff(o: Object)
    ensures ShapeIssue(o).None? && (forall d <- Members(o) :: Simple(d)) <==> PlainObject(o)
  {
    if o.List? {
      assert Members(o) == o.slots;
      if forall d <- o.slots :: d.Some? {
        PresentWithoutHoles(o.slots);
        if o.extras == [] {
          assert Present(o.slots) + o.extras == Present(o.slots);
          assert ArrayShape(o) <==> o.standard && forall d <- o.slots :: d.value.enumerable;
        } else {
          assert |Present(o.slots) + o.extras| > |o.slots|;
        }
      }
    } else {
      forall d <- o.props ensures Some(d) in Members(o) {
        var i :| 0 <= i < |o.props| && o.props[i] == d;
        assert Members(o)[i] == Some(d);
      }
      forall m <- Members(o) ensures m.Some? && m.value in o.props {
        var i :| 0 <= i < |o.props| && Members(o)[i] == m;
      }
    }
  }
}
