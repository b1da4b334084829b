/**
 What the change list of apps/web/src/automations/graph-diff.ts says: a change is listed exactly when the block,
 setting or connection it describes is written differently on both sides, with its values there.
 */
module DiffReport {
  import opened Wrappers
  import opened Json
  import opened FlowGraph
  import opened Canonical
  import opened GraphDiff

  /** `c` tells a difference between the blocks one id has before and after. */
  ghost predicate BlockChange(left: Option<Node>, right: Option<Node>, c: Change) {
    match (left, right)
    case (None, None) => false
    case (None, Some(r)) => c == Change(Added, r.caption, "Bloco", None, Some(NodeJson(r)))
    case (Some(l), None) => c == Change(Removed, l.caption, "Bloco", Some(NodeJson(l)), None)
    case (Some(l), Some(r)) =>
      || (l.kind != r.kind
           && c == Change(Configuration, r.caption, "type", Some(Str(KindText(l.kind))), Some(Str(KindText(r.kind)))))
      || SettingChange(l, r, c)
      || (l.caption != r.caption
           && c == Change(Presentation, r.caption, "label", Some(Str(l.caption)), Some(Str(r.caption))))
      || (Written(PositionJson(l.position)) != Written(PositionJson(r.position)) &&
          c == Change(Presentation, r.caption, "position",
                      Some(PositionJson(l.position)), Some(PositionJson(r.position))))
  }

  ghost predicate SettingChange(l: Node, r: Node, c: Change) {
    exists key | key in l.data.Keys + r.data.Keys :: Differs(l.data, r.data, r.caption, key, c)
  }

  predicate Differs(left: Fields, right: Fields, caption: string, key: string, c: Change) {
    WrittenField(Field(left, key)) != WrittenField(Field(right, key))
    && c == Change(Configuration, caption, "data." + key, Field(left, key), Field(right, key))
  }

  /** `c` tells that one id stands for another connection, or for none, after. */
  ghost predicate ConnectionChange(before: map<string, Node>, after: map<string, Node>, left: Option<Edge>,
                                   right: Option<Edge>, c: Change) {
    && left != right
    && c.kind == (if left.None? then Added else if right.None? then Removed else Connection)
    && c.field == "Conexão"
    && c.before == (if left.Some? then Some(EdgeJson(left.value)) else None)
    && c.after == (if right.Some? then Some(EdgeJson(right.value)) else None)
    && var e := if right.Some? then right.value else left.value;
       exists from, to | IsNamed(before, after, e.source, from) && IsNamed(before, after, e.target, to) ::
         c.caption == from + " → " + to
  }

  /** What a block is called: as the newer graph names it, else as the older one does, else by its id. */
  ghost predicate IsNamed(before: map<string, Node>, after: map<string, Node>, id: string, name: string) {
    && (id in after ==> name == after[id].caption)
    && (id !in after && id in before ==> name == before[id].caption)
    && (id !in after && id !in before ==> name == id)
  }

  lemma NamesAre(before: map<string, Node>, after: map<string, Node>, id: string, name: string)
    ensures IsNamed(before, after, id, name) <==> name == EndName(before, after, id)
  {
  }

  lemma CaptionIs(before: map<string, Node>, after: map<string, Node>, e: Edge, caption: string)
    ensures caption == EndName(before, after, e.source) + " → " + EndName(before, after, e.target) <==>
      exists from, to | IsNamed(before, after, e.source, from) && IsNamed(before, after, e.target, to) ::
        caption == from + " → " + to
  {
    NamesAre(before, after, e.source, EndName(before, after, e.source));
    NamesAre(before, after, e.target, EndName(before, after, e.target));
  }

  lemma IfChangedHolds(o: Orders, kind: ChangeKind, caption: string, field: string, left: Option<Json>,
                       right: Option<Json>, c: Change)
    requires Sorts(o.keys)
    ensures c in IfChanged(o, kind, caption, field, left, right) <==>
      WrittenField(left) != WrittenField(right) && c == Change(kind, caption, field, left, right)
  {
    hide CanonicalField, Sorts, WrittenField;
    SameTextIffWrittenAlike(o.keys, left, right);
  }

  lemma {:induction false} DataChangesHold(o: Orders, caption: string, left: Fields, right: Fields, keys: seq<string>,
                                           k: nat, c: Change)
    requires Sorts(o.keys) && k <= |keys|
    ensures c in DataChanges(o, caption, left, right, keys, k) <==>
      exists i | 0 <= i < k :: Differs(left, right, caption, keys[i], c)
  {
    hide IfChanged, Sorts, WrittenField;
    if k > 0 {
      DataChangesHold(o, caption, left, right, keys, k - 1, c);
      IfChangedHolds(o, Configuration, caption, "data." + keys[k - 1], Field(left, keys[k - 1]),
        Field(right, keys[k - 1]), c);
    }
  }

  lemma SettingsHold(o: Orders, l: Node, r: Node, keys: seq<string>, c: Change)
    requires Sorts(o.keys) && Lists(keys, l.data.Keys + r.data.Keys)
    ensures c in DataChanges(o, r.caption, l.data, r.data, keys, |keys|) <==> SettingChange(l, r, c)
  {
    hide DataChanges, Sorts, Differs;
    DataChangesHold(o, r.caption, l.data, r.data, keys, |keys|, c);
    if SettingChange(l, r, c) {
      var key :| key in l.data.Keys + r.data.Keys && Differs(l.data, r.data, r.caption, key, c);
      var i :| 0 <= i < |keys| && keys[i] == key;
    }
  }

  lemma BothBlocksHold(o: Orders, l: Node, r: Node, c: Change)
    requires Sorts(o.ids) && Sorts(o.keys)
    ensures c in NodeChanges(o, Some(l), Some(r)) <==> BlockChange(Some(l), Some(r), c)
  {
    var keys := o.ids(l.data.Keys + r.data.Keys);
    assert Lists(keys, l.data.Keys + r.data.Keys);
    TextsAreWritten();
    hide Sorts, IfChanged, DataChanges, KindText, PositionJson, Lists, Written, SettingChange;
    SettingsHold(o, l, r, keys, c);
    IfChangedHolds(o, Configuration, r.caption, "type", Some(Str(KindText(l.kind))), Some(Str(KindText(r.kind))), c);
    IfChangedHolds(o, Presentation, r.caption, "label", Some(Str(l.caption)), Some(Str(r.caption)), c);
    IfChangedHolds(o, Presentation, r.caption, "position", Some(PositionJson(l.position)),
      Some(PositionJson(r.position)), c);
    KindTextIsInjective(l.kind, r.kind);
  }

  lemma BlockChangesHold(o: Orders, left: Option<Node>, right: Option<Node>, c: Change)
    requires Sorts(o.ids) && Sorts(o.keys)
    ensures c in NodeChanges(o, left, right) <==> BlockChange(left, right, c)
  {
    hide Sorts, IfChanged, DataChanges, NodeJson, Written, SettingChange;
    if left.Some? && right.Some? {
      BothBlocksHold(o, left.value, right.value, c);
    } else if left.Some? {
      IfChangedHolds(o, Removed, left.value.caption, "Bloco", Some(NodeJson(left.value)), None, c);
    } else if right.Some? {
      IfChangedHolds(o, Added, right.value.caption, "Bloco", None, Some(NodeJson(right.value)), c);
    }
  }

  lemma ConnectionChangesHold(o: Orders, before: map<string, Node>, after: map<string, Node>, left: Option<Edge>,
                              right: Option<Edge>, c: Change)
    requires Sorts(o.keys)
    ensures c in EdgeChanges(o, before, after, left, right) <==> ConnectionChange(before, after, left, right, c)
  {
    hide Sorts, IfChanged, EdgeJson, EndName, Written, IsNamed;
    if left.Some? || right.Some? {
      var e := if right.Some? then right.value else left.value;
      CaptionIs(before, after, e, c.caption);
      var d := if left.Some? then left.value else e;
      EdgeJsonIsInjective(e, d);
      EdgeJsonIsInjective(d, e);
      EdgeIsWritten(e);
      EdgeIsWritten(d);
      IfChangedHolds(o, if left.None? then Added else if right.None? then Removed else Connection,
                     EndName(before, after, e.source) + " → " + EndName(before, after, e.target), "Conexão",
                     if left.Some? then Some(EdgeJson(left.value)) else None,
                     if right.Some? then Some(EdgeJson(right.value)) else None, c);
    }
  }

  ghost predicate BlockChanged(before: Graph, after: Graph, id: string, c: Change) {
    BlockChange(MapGet(NodeMap(before.nodes), id), MapGet(NodeMap(after.nodes), id), c)
  }

  lemma {:induction false} AllBlockChangesHold(o: Orders, before: Graph, after: Graph, ids: seq<string>, k: nat,
                                               c: Change)
    requires Sorts(o.ids) && Sorts(o.keys) && k <= |ids|
    ensures c in AllNodeChanges(o, NodeMap(before.nodes), NodeMap(after.nodes), ids, k) <==>
      exists i | 0 <= i < k :: BlockChanged(before, after, ids[i], c)
  {
    hide Sorts, NodeChanges, NodeMap, BlockChange;
    if k > 0 {
      AllBlockChangesHold(o, before, after, ids, k - 1, c);
      BlockChangesHold(o, MapGet(NodeMap(before.nodes), ids[k - 1]), MapGet(NodeMap(after.nodes), ids[k - 1]), c);
    }
  }

  lemma {:induction false} AllConnectionChangesHold(o: Orders, previous: map<string, Node>, next: map<string, Node>,
                                                    before: map<string, Edge>, after: map<string, Edge>,
                                                    ids: seq<string>, k: nat, c: Change)
    requires Sorts(o.keys) && k <= |ids|
    ensures c in AllEdgeChanges(o, previous, next, before, after, ids, k) <==>
      exists i | 0 <= i < k :: ConnectionChange(previous, next, MapGet(before, ids[i]), MapGet(after, ids[i]), c)
  {
    hide Sorts, EdgeChanges, ConnectionChange;
    if k > 0 {
      AllConnectionChangesHold(o, previous, next, before, after, ids, k - 1, c);
      ConnectionChangesHold(o, previous, next, MapGet(before, ids[k - 1]), MapGet(after, ids[k - 1]), c);
    }
  }

  ghost predicate ConnectionChanged(before: Graph, after: Graph, id: string, c: Change) {
    ConnectionChange(NodeMap(before.nodes), NodeMap(after.nodes), MapGet(EdgeMap(before.edges), id),
      MapGet(EdgeMap(after.edges), id), c)
  }

  lemma ChangedIdIsListed(before: Graph, after: Graph, id: string, c: Change)
    requires BlockChanged(before, after, id, c)
    ensures id in NodeMap(before.nodes).Keys + NodeMap(after.nodes).Keys
  {
    hide NodeMap;
  }

  lemma BlocksAreListed(o: Orders, before: Graph, after: Graph, c: Change)
    requires Sorts(o.ids) && Sorts(o.keys)
    ensures var ids := o.ids(NodeMap(before.nodes).Keys + NodeMap(after.nodes).Keys);
      c in AllNodeChanges(o, NodeMap(before.nodes), NodeMap(after.nodes), ids, |ids|) <==>
        exists id :: BlockChanged(before, after, id, c)
  {
    var ids := o.ids(NodeMap(before.nodes).Keys + NodeMap(after.nodes).Keys);
    assert Lists(ids, NodeMap(before.nodes).Keys + NodeMap(after.nodes).Keys);
    assert forall id | id in NodeMap(before.nodes).Keys + NodeMap(after.nodes).Keys :: id in ids;
    hide *;
    AllBlockChangesHold(o, before, after, ids, |ids|, c);
    forall id | BlockChanged(before, after, id, c)
      ensures exists i | 0 <= i < |ids| :: BlockChanged(before, after, ids[i], c)
    {
      ChangedIdIsListed(before, after, id, c);
      var i :| 0 <= i < |ids| && ids[i] == id;
    }
  }

  lemma ConnectionsIn(o: Orders, previous: map<string, Node>, next: map<string, Node>, left: map<string, Edge>,
                      right: map<string, Edge>, c: Change)
    requires Sorts(o.ids) && Sorts(o.keys)
    ensures var ids := o.ids(left.Keys + right.Keys);
      c in AllEdgeChanges(o, previous, next, left, right, ids, |ids|) <==>
        exists id :: ConnectionChange(previous, next, MapGet(left, id), MapGet(right, id), c)
  {
    var ids := o.ids(left.Keys + right.Keys);
    assert Lists(ids, left.Keys + right.Keys);
    assert forall id | id in left.Keys + right.Keys :: id in ids;
    hide *;
    AllConnectionChangesHold(o, previous, next, left, right, ids, |ids|, c);
    forall id | ConnectionChange(previous, next, MapGet(left, id), MapGet(right, id), c)
      ensures exists i | 0 <= i < |ids| ::
        ConnectionChange(previous, next, MapGet(left, ids[i]), MapGet(right, ids[i]), c)
    {
      ChangedConnectionIsListed(previous, next, left, right, id, c);
      var i :| 0 <= i < |ids| && ids[i] == id;
    }
  }

  lemma ChangedConnectionIsListed(previous: map<string, Node>, next: map<string, Node>, left: map<string, Edge>,
                                  right: map<string, Edge>, id: string, c: Change)
    requires ConnectionChange(previous, next, MapGet(left, id), MapGet(right, id), c)
    ensures id in left.Keys + right.Keys
  {
    hide IsNamed, EdgeJson;
  }

  lemma ConnectionsAreListed(o: Orders, before: Graph, after: Graph, c: Change)
    requires Sorts(o.ids) && Sorts(o.keys)
    ensures var ids := o.ids(EdgeMap(before.edges).Keys + EdgeMap(after.edges).Keys);
      c in AllEdgeChanges(o, NodeMap(before.nodes), NodeMap(after.nodes), EdgeMap(before.edges), EdgeMap(after.edges),
        ids, |ids|)
      <==> exists id :: ConnectionChanged(before, after, id, c)
  {
    hide *;
    var previous, next, left, right := NodeMap(before.nodes), NodeMap(after.nodes), EdgeMap(before.edges),
      EdgeMap(after.edges);
    ConnectionsIn(o, previous, next, left, right, c);
    forall id ensures ConnectionChanged(before, after, id, c) <==>
      ConnectionChange(previous, next, MapGet(left, id), MapGet(right, id), c)
    {
      ConnectionIs(before, after, id, c);
    }
  }

  lemma ConnectionIs(before: Graph, after: Graph, id: string, c: Change)
    ensures ConnectionChanged(before, after, id, c) <==>
      ConnectionChange(NodeMap(before.nodes), NodeMap(after.nodes), MapGet(EdgeMap(before.edges), id),
                       MapGet(EdgeMap(after.edges), id), c)
  {
    hide ConnectionChange, NodeMap, EdgeMap;
  }

  /**
   A change is reported exactly when some id stands for blocks or connections that are written differently, as it tells.
   */
  lemma ReportedIffDifferent(o: Orders, before: Graph, after: Graph, c: Change)
    requires Sorts(o.ids) && Sorts(o.keys)
    ensures c in Changes(o, before, after) <==>
      (exists id :: BlockChanged(before, after, id, c)) || (exists id :: ConnectionChanged(before, after, id, c))
  {
    hide Sorts, AllNodeChanges, AllEdgeChanges, NodeMap, EdgeMap, BlockChanged, ConnectionChanged;
    BlocksAreListed(o, before, after, c);
    ConnectionsAreListed(o, before, after, c);
  }
}
