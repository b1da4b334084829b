/**
 `compareGraphs` of apps/web/src/automations/graph-diff.ts: the list of changes between two graphs, which is empty
 exactly when every id stands for blocks and connections that are written alike in both graphs.
 */
module GraphDiff {
  import opened Wrappers
  import opened Json
  import opened FlowGraph
  import opened Canonical

  /** The two orders in use: the default order of `sort()` for ids, the locale's for object keys. */
  datatype Orders = Orders(ids: set<string> -> seq<string>, keys: set<string> -> seq<string>)

  datatype ChangeKind = Added | Removed | Configuration | Presentation | Connection

  datatype Change = Change(kind: ChangeKind, caption: string, field: string, before: Option<Json>, after: Option<Json>)

  // ----- graphs as values -----

  function NodeJson(n: Node): Json {
    Obj(map["id" := Str(n.id), "type" := Str(KindText(n.kind)), "label" := Str(n.caption),
            "position" := PositionJson(n.position), "data" := Obj(n.data)])
  }

  function PositionJson(p: Position): Json {
    Obj(map["x" := Number(p.x), "y" := Number(p.y)])
  }

  function EdgeJson(e: Edge): Json {
    Obj(map["id" := Str(e.id), "source" := Str(e.source), "target" := Str(e.target), "port" := Str(e.port)])
  }

  /** `new Map(nodes.map(node => [node.id, node]))`: a repeated id keeps its last block. */
  function NodeMap(nodes: seq<Node>): (m: map<string, Node>)
    ensures m.Keys == NodeIds(nodes)
    ensures forall id <- m :: m[id] in nodes && m[id].id == id
  {
    if nodes == [] then map[]
    else
      var last := nodes[|nodes| - 1];
      assert nodes == nodes[..|nodes| - 1] + [last];
      NodeMap(nodes[..|nodes| - 1])[last.id := last]
  }

  function EdgeMap(edges: seq<Edge>): (m: map<string, Edge>)
    ensures forall e <- edges :: e.id in m
    ensures forall id <- m :: m[id] in edges && m[id].id == id
  {
    if edges == [] then map[]
    else
      var last := edges[|edges| - 1];
      assert edges == edges[..|edges| - 1] + [last];
      EdgeMap(edges[..|edges| - 1])[last.id := last]
  }

  function MapGet<V>(m: map<string, V>, id: string): Option<V> {
    if id in m then Some(m[id]) else None
  }

  // ----- the changes, in source order -----

  function IfChanged(o: Orders, kind: ChangeKind, caption: string, field: string, left: Option<Json>,
                     right: Option<Json>): seq<Change>
    requires Sorts(o.keys)
  {
    if CanonicalField(o.keys, left) != CanonicalField(o.keys, right) then [Change(kind, caption, field, left, right)]
      else []
  }

  /** The first `k` settings. */
  ghost function DataChanges(o: Orders, caption: string, left: Fields, right: Fields, keys: seq<string>,
                             k: nat): seq<Change>
    requires Sorts(o.keys) && k <= |keys|
  {
    if k == 0 then []
    else
      DataChanges(o, caption, left, right, keys, k - 1)
      + IfChanged(o, Configuration, caption, "data." + keys[k - 1], Field(left, keys[k - 1]), Field(right, keys[k - 1]))
  }

  ghost function NodeChanges(o: Orders, left: Option<Node>, right: Option<Node>): seq<Change>
    requires Sorts(o.keys)
  {
    match (left, right)
    case (Some(l), Some(r)) =>
      var keys := o.ids(l.data.Keys + r.data.Keys);
      IfChanged(o, Configuration, r.caption, "type", Some(Str(KindText(l.kind))), Some(Str(KindText(r.kind))))
      + DataChanges(o, r.caption, l.data, r.data, keys, |keys|)
      + IfChanged(o, Presentation, r.caption, "label", Some(Str(l.caption)), Some(Str(r.caption)))
      + IfChanged(o, Presentation, r.caption, "position", Some(PositionJson(l.position)),
        Some(PositionJson(r.position)))
    case (Some(l), None) => IfChanged(o, Removed, l.caption, "Bloco", Some(NodeJson(l)), None)
    case (None, Some(r)) => IfChanged(o, Added, r.caption, "Bloco", None, Some(NodeJson(r)))
    case (None, None) => []
  }

  /** The caption of an edge names the blocks it joins, as the newer graph names them if it can. */
  function EndName(before: map<string, Node>, after: map<string, Node>, id: string): string {
    if id in after then after[id].caption else if id in before then before[id].caption else id
  }

  function EdgeChanges(o: Orders, before: map<string, Node>, after: map<string, Node>, left: Option<Edge>,
                       right: Option<Edge>): seq<Change>
    requires Sorts(o.keys)
  {
    if left.None? && right.None? then []
    else
      var e := if right.Some? then right.value else left.value;
      IfChanged(o, if left.None? then Added else if right.None? then Removed else Connection,
                EndName(before, after, e.source) + " → " + EndName(before, after, e.target), "Conexão",
                if left.Some? then Some(EdgeJson(left.value)) else None,
                if right.Some? then Some(EdgeJson(right.value)) else None)
  }

  ghost function AllNodeChanges(o: Orders, before: map<string, Node>, after: map<string, Node>, ids: seq<string>,
                                k: nat): seq<Change>
    requires Sorts(o.keys) && k <= |ids|
  {
    if k == 0 then []
    else
      AllNodeChanges(o, before, after, ids, k - 1)
      + NodeChanges(o, MapGet(before, ids[k - 1]), MapGet(after, ids[k - 1]))
  }

  ghost function AllEdgeChanges(o: Orders, nodesBefore: map<string, Node>, nodesAfter: map<string, Node>,
                                before: map<string, Edge>, after: map<string, Edge>, ids: seq<string>,
                                  k: nat): seq<Change>
    requires Sorts(o.keys) && k <= |ids|
  {
    if k == 0 then []
    else
      AllEdgeChanges(o, nodesBefore, nodesAfter, before, after, ids, k - 1)
      + EdgeChanges(o, nodesBefore, nodesAfter, MapGet(before, ids[k - 1]), MapGet(after, ids[k - 1]))
  }

  ghost function Changes(o: Orders, before: Graph, after: Graph): seq<Change>
    requires Sorts(o.ids) && Sorts(o.keys)
  {
    var previous, next := NodeMap(before.nodes), NodeMap(after.nodes);
    var previousEdges, nextEdges := EdgeMap(before.edges), EdgeMap(after.edges);
    var ids, edgeIds := o.ids(previous.Keys + next.Keys), o.ids(previousEdges.Keys + nextEdges.Keys);
    AllNodeChanges(o, previous, next, ids, |ids|)
    + AllEdgeChanges(o, previous, next, previousEdges, nextEdges, edgeIds, |edgeIds|)
  }

  // ----- the comparison itself -----

  method CompareNodes(o: Orders, left: Node, right: Node) returns (changes: seq<Change>)
    requires Sorts(o.keys)
    ensures changes == NodeChanges(o, Some(left), Some(right))
  {
    hide IfChanged, Sorts;
    changes := IfChanged(o, Configuration, right.caption, "type", Some(Str(KindText(left.kind))),
      Some(Str(KindText(right.kind))));
    var keys := o.ids(left.data.Keys + right.data.Keys);
    var settings: seq<Change> := [];
    for k := 0 to |keys|
      invariant settings == DataChanges(o, right.caption, left.data, right.data, keys, k)
    {
      settings := settings
        + IfChanged(o, Configuration, right.caption, "data." + keys[k], Field(left.data, keys[k]),
          Field(right.data, keys[k]));
    }
    changes := changes + settings;
    changes := changes
      + IfChanged(o, Presentation, right.caption, "label", Some(Str(left.caption)), Some(Str(right.caption)));
    changes := changes
      + IfChanged(o, Presentation, right.caption, "position", Some(PositionJson(left.position)),
        Some(PositionJson(right.position)));
  }

  /**
   The ordered list of changes; empty exactly when no id leads to differently written blocks or different connections.
   */
  method CompareGraphs(o: Orders, before: Graph, after: Graph) returns (changes: seq<Change>)
    requires Sorts(o.ids) && Sorts(o.keys)
    ensures changes == Changes(o, before, after)
    ensures changes == [] <==>
      WrittenBlocks(before) == WrittenBlocks(after) && EdgeMap(before.edges) == EdgeMap(after.edges)
  {
    NoChangesMeansSameWriting(o, before, after);
    hide IfChanged, Sorts, WrittenBlocks, EdgeChanges, CanonicalField;
    changes := [];
    var previous, next := NodeMap(before.nodes), NodeMap(after.nodes);
    var ids := o.ids(previous.Keys + next.Keys);
    for k := 0 to |ids|
      invariant changes == AllNodeChanges(o, previous, next, ids, k)
    {
      var left, right := MapGet(previous, ids[k]), MapGet(next, ids[k]);
      var found: seq<Change> := [];
      if left.Some? && right.Some? {
        found := CompareNodes(o, left.value, right.value);
      } else if left.Some? {
        found := IfChanged(o, Removed, left.value.caption, "Bloco", Some(NodeJson(left.value)), None);
      } else if right.Some? {
        found := IfChanged(o, Added, right.value.caption, "Bloco", None, Some(NodeJson(right.value)));
      }
      assert found == NodeChanges(o, left, right);
      changes := changes + found;
    }
    var nodePart := changes;
    changes := [];
    var previousEdges, nextEdges := EdgeMap(before.edges), EdgeMap(after.edges);
    var edgeIds := o.ids(previousEdges.Keys + nextEdges.Keys);
    for k := 0 to |edgeIds|
      invariant changes == AllEdgeChanges(o, previous, next, previousEdges, nextEdges, edgeIds, k)
    {
      changes := changes
        + EdgeChanges(o, previous, next, MapGet(previousEdges, edgeIds[k]), MapGet(nextEdges, edgeIds[k]));
    }
    changes := nodePart + changes;
  }

  // ----- no change means the same writing -----

  /** A block, or its absence, as its text has it. */
  function WrittenBlock(n: Option<Node>): Option<Json> {
    match n
    case None => None
    case Some(block) => Some(Written(NodeJson(block)))
  }

  /** What each id stands for, as its text has it. */
  function WrittenBlocks(g: Graph): map<string, Json> {
    var nodes := NodeMap(g.nodes);
    map id <- nodes :: Written(NodeJson(nodes[id]))
  }

  lemma IfChangedEmpty(o: Orders, kind: ChangeKind, caption: string, field: string, left: Option<Json>,
                       right: Option<Json>)
    requires Sorts(o.keys)
    ensures IfChanged(o, kind, caption, field, left, right) == [] <==> WrittenField(left) == WrittenField(right)
  {
    hide CanonicalField, Sorts, WrittenField;
    SameTextIffWrittenAlike(o.keys, left, right);
  }

  lemma {:induction false} DataChangesEmpty(o: Orders, caption: string, left: Fields, right: Fields, keys: seq<string>,
                                            k: nat)
    requires Sorts(o.keys) && k <= |keys|
    ensures DataChanges(o, caption, left, right, keys, k) == [] <==>
      forall i | 0 <= i < k :: WrittenField(Field(left, keys[i])) == WrittenField(Field(right, keys[i]))
  {
    hide IfChanged, Sorts, WrittenField;
    if k > 0 {
      DataChangesEmpty(o, caption, left, right, keys, k - 1);
      IfChangedEmpty(o, Configuration, caption, "data." + keys[k - 1], Field(left, keys[k - 1]),
        Field(right, keys[k - 1]));
    }
  }

  lemma SameDataIffSameFields(left: Fields, right: Fields, keys: seq<string>)
    requires Lists(keys, left.Keys + right.Keys)
    ensures (forall i | 0 <= i < |keys| :: WrittenField(Field(left, keys[i])) == WrittenField(Field(right, keys[i])))
       <==> Written(Obj(left)) == Written(Obj(right))
  {
    var l, r := Written(Obj(left)).fields, Written(Obj(right)).fields;
    assert forall key ::
      WrittenField(Field(left, key)) == Field(l, key) && WrittenField(Field(right, key)) == Field(r, key);
    assert l.Keys == left.Keys && r.Keys == right.Keys;
    hide Written;
    SameFieldsIffSameMaps(l, r, keys);
  }

  lemma SameFieldsIffSameMaps(left: Fields, right: Fields, keys: seq<string>)
    requires Lists(keys, left.Keys + right.Keys)
    ensures (forall i | 0 <= i < |keys| :: Field(left, keys[i]) == Field(right, keys[i])) <==> left == right
  {
    if forall i | 0 <= i < |keys| :: Field(left, keys[i]) == Field(right, keys[i]) {
      forall key | key in left.Keys + right.Keys ensures Field(left, key) == Field(right, key) {
        var i :| 0 <= i < |keys| && keys[i] == key;
      }
      forall key | key in left ensures key in right && left[key] == right[key] {
        assert Field(left, key) == Field(right, key);
      }
      forall key | key in right ensures key in left {
        assert Field(left, key) == Field(right, key);
      }
      assert left == right;
    }
  }

  lemma KindTextIsInjective(k: NodeKind, l: NodeKind)
    ensures KindText(k) == KindText(l) <==> k == l
  {
    assert "start"[0] == 's' && "start"[1] == 't' && "message"[0] == 'm' && "message"[1] == 'e' && |"message"| == 7
      && |"menu"| == 4 && "input"[0] == 'i' && "condition"[0] == 'c' && "variable"[0] == 'v' && "handoff"[0] == 'h'
      && "end"[0] == 'e';
  }

  lemma PositionJsonIsInjective(p: Position, q: Position)
    ensures PositionJson(p) == PositionJson(q) <==> p == q
  {
    if PositionJson(p) == PositionJson(q) {
      assert PositionJson(p).fields["x"] == Number(p.x) && PositionJson(p).fields["y"] == Number(p.y);
      assert PositionJson(q).fields["x"] == Number(q.x) && PositionJson(q).fields["y"] == Number(q.y);
    }
  }

  lemma EdgeJsonIsInjective(e: Edge, f: Edge)
    ensures EdgeJson(e) == EdgeJson(f) <==> e == f
    ensures FiniteJson(EdgeJson(e))
  {
    if EdgeJson(e) == EdgeJson(f) {
      assert EdgeJson(e).fields["id"] == Str(e.id) && EdgeJson(f).fields["id"] == Str(f.id);
      assert EdgeJson(e).fields["source"] == Str(e.source) && EdgeJson(f).fields["source"] == Str(f.source);
      assert EdgeJson(e).fields["target"] == Str(e.target) && EdgeJson(f).fields["target"] == Str(f.target);
      assert EdgeJson(e).fields["port"] == Str(e.port) && EdgeJson(f).fields["port"] == Str(f.port);
    }
  }

  /** A block is written field by field. */
  lemma WrittenNodeFields(n: Node)
    ensures var w := Written(NodeJson(n));
      && w.Obj? && w.fields.Keys == {"id", "type", "label", "position", "data"}
      && w.fields["id"] == Str(n.id) && w.fields["type"] == Str(KindText(n.kind)) && w.fields["label"] == Str(n.caption)
      && w.fields["position"] == Written(PositionJson(n.position)) && w.fields["data"] == Written(Obj(n.data))
  {
  }

  lemma WrittenAlikeIff(l: Node, r: Node)
    ensures Written(NodeJson(l)) == Written(NodeJson(r)) <==>
      && l.id == r.id && l.kind == r.kind && l.caption == r.caption
      && Written(PositionJson(l.position)) == Written(PositionJson(r.position))
      && Written(Obj(l.data)) == Written(Obj(r.data))
  {
    WrittenNodeFields(l);
    WrittenNodeFields(r);
    KindTextIsInjective(l.kind, r.kind);
    hide Written, NodeJson, PositionJson, KindText;
    var v, w := Written(NodeJson(l)), Written(NodeJson(r));
    if v.fields == w.fields { assert v == w; }
  }

  lemma BothNodesChangesEmpty(o: Orders, l: Node, r: Node)
    requires Sorts(o.ids) && Sorts(o.keys) && l.id == r.id
    ensures NodeChanges(o, Some(l), Some(r)) == [] <==> Written(NodeJson(l)) == Written(NodeJson(r))
  {
    var keys := o.ids(l.data.Keys + r.data.Keys);
    assert Lists(keys, l.data.Keys + r.data.Keys);
    WrittenAlikeIff(l, r);
    TextsAreWritten();
    hide Sorts, IfChanged, DataChanges, KindText, PositionJson, NodeJson, Lists, Written;
    DataChangesEmpty(o, r.caption, l.data, r.data, keys, |keys|);
    SameDataIffSameFields(l.data, r.data, keys);
    IfChangedEmpty(o, Configuration, r.caption, "type", Some(Str(KindText(l.kind))), Some(Str(KindText(r.kind))));
    IfChangedEmpty(o, Presentation, r.caption, "label", Some(Str(l.caption)), Some(Str(r.caption)));
    IfChangedEmpty(o, Presentation, r.caption, "position", Some(PositionJson(l.position)),
      Some(PositionJson(r.position)));
    KindTextIsInjective(l.kind, r.kind);
  }

  lemma TextsAreWritten()
    ensures forall s :: Written(Str(s)) == Str(s)
  {
  }

  lemma NodeChangesEmpty(o: Orders, left: Option<Node>, right: Option<Node>)
    requires Sorts(o.ids) && Sorts(o.keys)
    requires left.Some? && right.Some? ==> left.value.id == right.value.id
    ensures NodeChanges(o, left, right) == [] <==> WrittenBlock(left) == WrittenBlock(right)
  {
    hide Sorts, IfChanged, DataChanges, NodeJson, Written;
    if left.Some? && right.Some? {
      BothNodesChangesEmpty(o, left.value, right.value);
    } else if left.Some? {
      IfChangedEmpty(o, Removed, left.value.caption, "Bloco", Some(NodeJson(left.value)), None);
    } else if right.Some? {
      IfChangedEmpty(o, Added, right.value.caption, "Bloco", None, Some(NodeJson(right.value)));
    }
  }

  lemma EdgeChangesEmpty(o: Orders, before: map<string, Node>, after: map<string, Node>, left: Option<Edge>,
                         right: Option<Edge>)
    requires Sorts(o.keys)
    ensures EdgeChanges(o, before, after, left, right) == [] <==> left == right
  {
    hide Sorts, IfChanged, EdgeJson, EndName, Written;
    if left.Some? || right.Some? {
      var e := if right.Some? then right.value else left.value;
      var l := if left.Some? then Some(EdgeJson(left.value)) else None;
      var r := if right.Some? then Some(EdgeJson(right.value)) else None;
      EdgeJsonIsInjective(e, if left.Some? then left.value else e);
      EdgeJsonIsInjective(if left.Some? then left.value else e, e);
      if left.Some? { EdgeIsWritten(left.value); }
      if right.Some? { EdgeIsWritten(right.value); }
      IfChangedEmpty(o, if left.None? then Added else if right.None? then Removed else Connection,
                     EndName(before, after, e.source) + " → " + EndName(before, after, e.target), "Conexão", l, r);
    }
  }

  lemma EdgeIsWritten(e: Edge)
    ensures Written(EdgeJson(e)) == EdgeJson(e)
  {
    EdgeJsonIsInjective(e, e);
    WrittenIsFinite(EdgeJson(e));
  }

  lemma {:induction false} AllNodeChangesEmpty(o: Orders, before: Graph, after: Graph, ids: seq<string>, k: nat)
    requires Sorts(o.ids) && Sorts(o.keys) && k <= |ids|
    ensures AllNodeChanges(o, NodeMap(before.nodes), NodeMap(after.nodes), ids, k) == [] <==>
      forall i | 0 <= i < k ::
        WrittenBlock(MapGet(NodeMap(before.nodes), ids[i])) == WrittenBlock(MapGet(NodeMap(after.nodes), ids[i]))
  {
    hide Sorts, NodeChanges, NodeMap, WrittenBlock;
    if k > 0 {
      AllNodeChangesEmpty(o, before, after, ids, k - 1);
      NodeChangesEmpty(o, MapGet(NodeMap(before.nodes), ids[k - 1]), MapGet(NodeMap(after.nodes), ids[k - 1]));
    }
  }

  lemma {:induction false} AllEdgeChangesEmpty(o: Orders, previous: map<string, Node>, next: map<string, Node>,
                                               before: map<string, Edge>, after: map<string, Edge>, ids: seq<string>,
                                                 k: nat)
    requires Sorts(o.keys) && k <= |ids|
    ensures AllEdgeChanges(o, previous, next, before, after, ids, k) == [] <==>
      forall i | 0 <= i < k :: MapGet(before, ids[i]) == MapGet(after, ids[i])
  {
    hide Sorts, EdgeChanges;
    if k > 0 {
      AllEdgeChangesEmpty(o, previous, next, before, after, ids, k - 1);
      EdgeChangesEmpty(o, previous, next, MapGet(before, ids[k - 1]), MapGet(after, ids[k - 1]));
    }
  }

  lemma SameMapsIffSameLookups<V>(a: map<string, V>, b: map<string, V>, ids: seq<string>)
    requires Lists(ids, a.Keys + b.Keys)
    ensures (forall i | 0 <= i < |ids| :: MapGet(a, ids[i]) == MapGet(b, ids[i])) <==> a == b
  {
    if forall i | 0 <= i < |ids| :: MapGet(a, ids[i]) == MapGet(b, ids[i]) {
      forall id | id in a.Keys + b.Keys ensures MapGet(a, id) == MapGet(b, id) {
        var i :| 0 <= i < |ids| && ids[i] == id;
      }
      forall id | id in a ensures id in b && a[id] == b[id] { assert MapGet(a, id) == MapGet(b, id); }
      forall id | id in b ensures id in a { assert MapGet(a, id) == MapGet(b, id); }
      assert a == b;
    }
  }

  lemma WrittenLookups(g: Graph, id: string)
    ensures WrittenBlocks(g).Keys == NodeMap(g.nodes).Keys
    ensures MapGet(WrittenBlocks(g), id) == WrittenBlock(MapGet(NodeMap(g.nodes), id))
  {
  }

  lemma SameBlocksIffSameLookups(before: Graph, after: Graph, ids: seq<string>)
    requires Lists(ids, NodeMap(before.nodes).Keys + NodeMap(after.nodes).Keys)
    ensures WrittenBlocks(before) == WrittenBlocks(after) <==>
      forall i | 0 <= i < |ids| ::
        WrittenBlock(MapGet(NodeMap(before.nodes), ids[i])) == WrittenBlock(MapGet(NodeMap(after.nodes), ids[i]))
  {
    hide *;
    WrittenLookups(before, "");
    WrittenLookups(after, "");
    forall i | 0 <= i < |ids|
      ensures MapGet(WrittenBlocks(before), ids[i]) == WrittenBlock(MapGet(NodeMap(before.nodes), ids[i]))
      ensures MapGet(WrittenBlocks(after), ids[i]) == WrittenBlock(MapGet(NodeMap(after.nodes), ids[i]))
    {
      WrittenLookups(before, ids[i]);
      WrittenLookups(after, ids[i]);
    }
    SameMapsIffSameLookups(WrittenBlocks(before), WrittenBlocks(after), ids);
  }

  lemma NoBlockChanges(o: Orders, before: Graph, after: Graph)
    requires Sorts(o.ids) && Sorts(o.keys)
    ensures var ids := o.ids(NodeMap(before.nodes).Keys + NodeMap(after.nodes).Keys);
      AllNodeChanges(o, NodeMap(before.nodes), NodeMap(after.nodes), ids, |ids|) == [] <==>
        WrittenBlocks(before) == WrittenBlocks(after)
  {
    var ids := o.ids(NodeMap(before.nodes).Keys + NodeMap(after.nodes).Keys);
    assert Lists(ids, NodeMap(before.nodes).Keys + NodeMap(after.nodes).Keys);
    hide *;
    AllNodeChangesEmpty(o, before, after, ids, |ids|);
    SameBlocksIffSameLookups(before, after, ids);
  }

  lemma NoConnectionChanges(o: Orders, before: Graph, after: Graph)
    requires Sorts(o.ids) && Sorts(o.keys)
    ensures var l, r := EdgeMap(before.edges), EdgeMap(after.edges);
      var ids := o.ids(l.Keys + r.Keys);
      AllEdgeChanges(o, NodeMap(before.nodes), NodeMap(after.nodes), l, r, ids, |ids|) == [] <==> l == r
  {
    var l, r := EdgeMap(before.edges), EdgeMap(after.edges);
    var ids := o.ids(l.Keys + r.Keys);
    assert Lists(ids, l.Keys + r.Keys);
    hide *;
    AllEdgeChangesEmpty(o, NodeMap(before.nodes), NodeMap(after.nodes), l, r, ids, |ids|);
    SameMapsIffSameLookups(l, r, ids);
  }

  /**
   Exactly: no change is reported if and only if every id stands for blocks written alike and for the same connection.
   */
  lemma NoChangesMeansSameWriting(o: Orders, before: Graph, after: Graph)
    requires Sorts(o.ids) && Sorts(o.keys)
    ensures Changes(o, before, after) == [] <==>
      WrittenBlocks(before) == WrittenBlocks(after) && EdgeMap(before.edges) == EdgeMap(after.edges)
  {
    hide Sorts, AllNodeChanges, AllEdgeChanges, NodeMap, EdgeMap, WrittenBlocks;
    NoBlockChanges(o, before, after);
    NoConnectionChanges(o, before, after);
  }

  // ----- finite graphs -----

  /** Every number in the blocks that ids stand for can be written in JSON. */
  ghost predicate FiniteGraph(g: Graph) {
    forall id <- NodeMap(g.nodes) :: FiniteNode(NodeMap(g.nodes)[id])
  }

  ghost predicate FiniteNode(n: Node) {
    (forall key <- n.data :: FiniteJson(n.data[key])) && IsDigitText(n.position.x) && IsDigitText(n.position.y)
  }

  lemma FiniteNodesWrittenAlike(l: Node, r: Node)
    requires FiniteNode(l) && FiniteNode(r)
    ensures Written(NodeJson(l)) == Written(NodeJson(r)) <==> l == r
  {
    WrittenAlikeIff(l, r);
    WrittenIsFinite(Obj(l.data));
    WrittenIsFinite(Obj(r.data));
    PositionIsFinite(l.position);
    PositionIsFinite(r.position);
    WrittenIsFinite(PositionJson(l.position));
    WrittenIsFinite(PositionJson(r.position));
    PositionJsonIsInjective(l.position, r.position);
    assert FiniteJson(Obj(l.data)) && FiniteJson(Obj(r.data));
    hide Written, IsDigitText, PositionJson;
  }

  lemma PositionIsFinite(p: Position)
    requires IsDigitText(p.x) && IsDigitText(p.y)
    ensures FiniteJson(PositionJson(p))
  {
  }

  /**
   From a finite graph: the other holds the same blocks and connections by id exactly when no change is reported and it
   is finite too.
   */
  lemma NoChangesMeansSameMaps(o: Orders, before: Graph, after: Graph)
    requires Sorts(o.ids) && Sorts(o.keys) && FiniteGraph(before)
    ensures NodeMap(before.nodes) == NodeMap(after.nodes) && EdgeMap(before.edges) == EdgeMap(after.edges) <==>
      Changes(o, before, after) == [] && FiniteGraph(after)
  {
    NoChangesMeansSameWriting(o, before, after);
    hide Changes, Sorts, EdgeMap;
    SameWritingIffSameMaps(before, after);
  }

  lemma SameWritingIffSameMaps(before: Graph, after: Graph)
    requires FiniteGraph(before)
    ensures WrittenBlocks(before) == WrittenBlocks(after) && FiniteGraph(after) <==>
      NodeMap(before.nodes) == NodeMap(after.nodes)
  {
    var l, r := NodeMap(before.nodes), NodeMap(after.nodes);
    hide FiniteNode, NodeJson, Written, NodeMap;
    if WrittenBlocks(before) == WrittenBlocks(after) && FiniteGraph(after) {
      assert l.Keys == WrittenBlocks(before).Keys == r.Keys;
      forall id <- l ensures l[id] == r[id] {
        assert WrittenBlocks(before)[id] == WrittenBlocks(after)[id];
        FiniteNodesWrittenAlike(l[id], r[id]);
      }
    }
  }
}
