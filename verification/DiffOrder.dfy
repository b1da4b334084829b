/**
 In which order the changes of apps/web/src/automations/graph-diff.ts are listed: blocks before connections, each in
 the order of their ids, and for a block its type, then its settings in the order of their names, its label and its
 position.
 */
module DiffOrder {
  import opened Wrappers
  import opened Json
  import opened FlowGraph
  import opened Canonical
  import opened GraphDiff
  import opened DiffReport
  import opened Listings

  /** The names of all settings of two blocks, sorted. */
  ghost function Settings(o: Orders, l: Node, r: Node): seq<string> {
    o.ids(l.data.Keys + r.data.Keys)
  }

  /** What each rule tells of a block that both graphs have. */
  ghost predicate BothTell(o: Orders, l: Node, r: Node, rule: nat, c: Change) {
    var keys := Settings(o, l, r);
    if rule == 0 then
      && l.kind != r.kind
      && c == Change(Configuration, r.caption, "type", Some(Str(KindText(l.kind))), Some(Str(KindText(r.kind))))
    else if rule <= |keys| then Differs(l.data, r.data, r.caption, keys[rule - 1], c)
    else if rule == |keys| + 1 then
      l.caption != r.caption
        && c == Change(Presentation, r.caption, "label", Some(Str(l.caption)), Some(Str(r.caption)))
    else
      && rule == |keys| + 2 && Written(PositionJson(l.position)) != Written(PositionJson(r.position))
      && c == Change(Presentation, r.caption, "position", Some(PositionJson(l.position)),
           Some(PositionJson(r.position)))
  }

  ghost predicate BlockTells(o: Orders, left: Option<Node>, right: Option<Node>, rule: nat, c: Change) {
    if left.Some? && right.Some? then BothTell(o, left.value, right.value, rule, c)
    else rule == 0 && BlockChange(left, right, c)
  }

  ghost function BlockIds(o: Orders, before: Graph, after: Graph): seq<string> {
    o.ids(NodeMap(before.nodes).Keys + NodeMap(after.nodes).Keys)
  }

  ghost function ConnectionIds(o: Orders, before: Graph, after: Graph): seq<string> {
    o.ids(EdgeMap(before.edges).Keys + EdgeMap(after.edges).Keys)
  }

  ghost predicate BlockAt(o: Orders, before: Graph, after: Graph, i: nat, rule: nat, c: Change) {
    var ids := BlockIds(o, before, after);
    i < |ids| && BlockTells(o, MapGet(NodeMap(before.nodes), ids[i]), MapGet(NodeMap(after.nodes), ids[i]), rule, c)
  }

  ghost predicate ConnectionAt(o: Orders, before: Graph, after: Graph, i: nat, c: Change) {
    i < |ConnectionIds(o, before, after)| && ConnectionChanged(before, after, ConnectionIds(o, before, after)[i], c)
  }

  /** The change is due at this place. */
  ghost predicate ChangeAt(o: Orders, before: Graph, after: Graph, p: Place, c: Change) {
    if p.stage == 0 then BlockAt(o, before, after, p.element, p.rule, c)
    else p.stage == 1 && p.rule == 0 && ConnectionAt(o, before, after, p.element, c)
  }

  ghost function ChangeIn(o: Orders, before: Graph, after: Graph): (due: (Place, Change) -> bool)
    ensures forall p, c :: due(p, c) <==> ChangeAt(o, before, after, p, c)
  {
    (p, c) => ChangeAt(o, before, after, p, c)
  }

  // ----- one block -----

  lemma TellsIf(o: Orders, kind: ChangeKind, caption: string, field: string, left: Option<Json>, right: Option<Json>)
    requires Sorts(o.keys)
    ensures IfChanged(o, kind, caption, field, left, right)
         == if WrittenField(left) != WrittenField(right) then [Change(kind, caption, field, left, right)] else []
  {
    hide CanonicalField, Sorts, WrittenField;
    SameTextIffWrittenAlike(o.keys, left, right);
  }

  ghost function SettingsDiffer(l: Node, r: Node, keys: seq<string>): (differ: seq<bool>)
    ensures |differ| == |keys|
    ensures forall i | 0 <= i < |keys| ::
      differ[i] == (WrittenField(Field(l.data, keys[i])) != WrittenField(Field(r.data, keys[i])))
  {
    seq(|keys|, i requires 0 <= i < |keys| =>
      WrittenField(Field(l.data, keys[i])) != WrittenField(Field(r.data, keys[i])))
  }

  function SettingChanges(l: Node, r: Node, keys: seq<string>): (changes: seq<Change>)
    ensures |changes| == |keys|
    ensures forall i | 0 <= i < |keys| ::
      changes[i] == Change(Configuration, r.caption, "data." + keys[i], Field(l.data, keys[i]), Field(r.data, keys[i]))
  {
    seq(|keys|, i requires 0 <= i < |keys| =>
      Change(Configuration, r.caption, "data." + keys[i], Field(l.data, keys[i]), Field(r.data, keys[i])))
  }

  lemma {:induction false} SettingsAreTold(o: Orders, l: Node, r: Node, keys: seq<string>, k: nat)
    requires Sorts(o.keys) && k <= |keys|
    ensures DataChanges(o, r.caption, l.data, r.data, keys, k)
         == Told(SettingsDiffer(l, r, keys), SettingChanges(l, r, keys), k)
  {
    hide IfChanged, Sorts, WrittenField, SettingsDiffer, SettingChanges;
    if k > 0 {
      SettingsAreTold(o, l, r, keys, k - 1);
      TellsIf(o, Configuration, r.caption, "data." + keys[k - 1], Field(l.data, keys[k - 1]),
        Field(r.data, keys[k - 1]));
    }
  }

  /** What can be told of a block both graphs have, in order. */
  ghost function BothDiffer(l: Node, r: Node, keys: seq<string>): seq<bool> {
    [l.kind != r.kind] + SettingsDiffer(l, r, keys)
    + [l.caption != r.caption, Written(PositionJson(l.position)) != Written(PositionJson(r.position))]
  }

  function BothChanges(l: Node, r: Node, keys: seq<string>): seq<Change> {
    [Change(Configuration, r.caption, "type", Some(Str(KindText(l.kind))), Some(Str(KindText(r.kind))))]
    + SettingChanges(l, r, keys)
    + [Change(Presentation, r.caption, "label", Some(Str(l.caption)), Some(Str(r.caption))),
       Change(Presentation, r.caption, "position", Some(PositionJson(l.position)), Some(PositionJson(r.position)))]
  }

  lemma BothAreTold(o: Orders, l: Node, r: Node)
    requires Sorts(o.ids) && Sorts(o.keys)
    ensures var keys := Settings(o, l, r);
      && |BothDiffer(l, r, keys)| == |BothChanges(l, r, keys)| == |keys| + 3
      && NodeChanges(o, Some(l), Some(r)) == Told(BothDiffer(l, r, keys), BothChanges(l, r, keys), |keys| + 3)
  {
    var keys := Settings(o, l, r);
    TextsAreWritten();
    KindTextIsInjective(l.kind, r.kind);
    hide Sorts, IfChanged, DataChanges, KindText, PositionJson, Written, Told, SettingsDiffer, SettingChanges;
    TellsIf(o, Configuration, r.caption, "type", Some(Str(KindText(l.kind))), Some(Str(KindText(r.kind))));
    TellsIf(o, Presentation, r.caption, "label", Some(Str(l.caption)), Some(Str(r.caption)));
    TellsIf(o, Presentation, r.caption, "position", Some(PositionJson(l.position)), Some(PositionJson(r.position)));
    SettingsAreTold(o, l, r, keys, |keys|);
    var a, b := [l.kind != r.kind], SettingsDiffer(l, r, keys);
    var c := [l.caption != r.caption, Written(PositionJson(l.position)) != Written(PositionJson(r.position))];
    var x := [Change(Configuration, r.caption, "type", Some(Str(KindText(l.kind))), Some(Str(KindText(r.kind))))];
    var y := SettingChanges(l, r, keys);
    var z := [Change(Presentation, r.caption, "label", Some(Str(l.caption)), Some(Str(r.caption))),
              Change(Presentation, r.caption, "position", Some(PositionJson(l.position)),
                Some(PositionJson(r.position)))];
    ToldOfMore(a, x, b, y, |b|);
    ToldOfMore(a + b, x + y, c, z, 2);
    ToldOfOne(a[0], x[0]);
    ToldOfTwo(c[0], c[1], z[0], z[1]);
  }

  lemma BothRule(o: Orders, l: Node, r: Node, rule: nat, c: Change)
    requires Sorts(o.ids)
    ensures var keys := Settings(o, l, r);
      && |BothDiffer(l, r, keys)| == |BothChanges(l, r, keys)| == |keys| + 3
      && (BothTell(o, l, r, rule, c) <==>
            rule < |keys| + 3 && BothDiffer(l, r, keys)[rule] && c == BothChanges(l, r, keys)[rule])
  {
    hide Sorts, KindText, PositionJson, Written, SettingsDiffer, SettingChanges, WrittenField;
    var keys := Settings(o, l, r);
    if 0 < rule <= |keys| {
      assert BothDiffer(l, r, keys)[rule] == SettingsDiffer(l, r, keys)[rule - 1];
      assert BothChanges(l, r, keys)[rule] == SettingChanges(l, r, keys)[rule - 1];
    }
  }

  lemma BlockListed(o: Orders, before: Graph, after: Graph, i: nat) returns (places: seq<Place>)
    requires Sorts(o.ids) && Sorts(o.keys) && i < |BlockIds(o, before, after)|
    ensures var id := BlockIds(o, before, after)[i];
      Listed(ChangeIn(o, before, after),
             NodeChanges(o, MapGet(NodeMap(before.nodes), id), MapGet(NodeMap(after.nodes), id)), places,
             Place(0, i, 0), Place(0, i + 1, 0))
  {
    var id := BlockIds(o, before, after)[i];
    var left, right := MapGet(NodeMap(before.nodes), id), MapGet(NodeMap(after.nodes), id);
    var due := ChangeIn(o, before, after);
    assert forall rule: nat, c :: due(Later(Place(0, i, 0), rule), c) <==> BlockTells(o, left, right, rule, c) by {
      hide BlockTells, NodeMap, BlockIds;
    }
    hide ChangeAt, Sorts, NodeMap, BlockIds, Listed;
    if left.Some? && right.Some? {
      places := BothListed(o, due, left.value, right.value, i);
    } else {
      places := EitherListed(o, due, left, right, i);
    }
  }

  lemma BothListed(o: Orders, due: (Place, Change) -> bool, l: Node, r: Node, i: nat) returns (places: seq<Place>)
    requires Sorts(o.ids) && Sorts(o.keys)
    requires forall rule: nat, c :: due(Later(Place(0, i, 0), rule), c) <==> BlockTells(o, Some(l), Some(r), rule, c)
    ensures Listed(due, NodeChanges(o, Some(l), Some(r)), places, Place(0, i, 0), Place(0, i + 1, 0))
  {
    var keys := Settings(o, l, r);
    var fails, items := BothDiffer(l, r, keys), BothChanges(l, r, keys);
    BothAreTold(o, l, r);
    hide Sorts, BothDiffer, BothChanges, BothTell, NodeChanges, Listed, Told, Settings;
    forall rule: nat, c
      ensures due(Later(Place(0, i, 0), rule), c) <==> rule < |keys| + 3 && fails[rule] && c == items[rule]
    {
      BothRule(o, l, r, rule, c);
    }
    assert Runs(due, fails, items, Place(0, i, 0));
    forall q, c | Within(q, Later(Place(0, i, 0), |keys| + 3), Place(0, i + 1, 0)) ensures !due(q, c) {
      assert q == Later(Place(0, i, 0), q.rule);
    }
    places := RunListed(due, fails, items, Place(0, i, 0), Place(0, i + 1, 0));
  }

  lemma EitherListed(o: Orders, due: (Place, Change) -> bool, left: Option<Node>, right: Option<Node>, i: nat)
    returns (places: seq<Place>)
    requires Sorts(o.ids) && Sorts(o.keys) && (left.None? || right.None?)
    requires forall rule: nat, c :: due(Later(Place(0, i, 0), rule), c) <==> BlockTells(o, left, right, rule, c)
    ensures Listed(due, NodeChanges(o, left, right), places, Place(0, i, 0), Place(0, i + 1, 0))
  {
    var told, c := EitherChange(o, left, right);
    hide Sorts, NodeChanges, Listed, BlockChange;
    assert Runs(due, [told], [c], Place(0, i, 0)) by {
      forall k, t | 0 <= k < 1 ensures due(Later(Place(0, i, 0), k), t) <==> [told][k] && t == [c][k] {}
    }
    forall q, t | Within(q, Later(Place(0, i, 0), 1), Place(0, i + 1, 0)) ensures !due(q, t) {
      assert q == Later(Place(0, i, 0), q.rule);
    }
    ToldOfOne(told, c);
    places := RunListed(due, [told], [c], Place(0, i, 0), Place(0, i + 1, 0));
  }

  /** At most one change is told of a block that only one graph has. */
  lemma EitherChange(o: Orders, left: Option<Node>, right: Option<Node>) returns (told: bool, change: Change)
    requires Sorts(o.ids) && Sorts(o.keys) && (left.None? || right.None?)
    ensures NodeChanges(o, left, right) == if told then [change] else []
    ensures forall c :: BlockChange(left, right, c) <==> told && c == change
  {
    hide Sorts, IfChanged, Written, NodeJson;
    told := left.Some? || right.Some?;
    change := if left.Some? then Change(Removed, left.value.caption, "Bloco", Some(NodeJson(left.value)), None)
      else if right.Some? then Change(Added, right.value.caption, "Bloco", None, Some(NodeJson(right.value)))
      else Change(Added, "", "", None, None);
    if told { TellsIf(o, change.kind, change.caption, change.field, change.before, change.after); }
  }

  lemma {:induction false} BlocksListed(o: Orders, before: Graph, after: Graph, k: nat) returns (places: seq<Place>)
    requires Sorts(o.ids) && Sorts(o.keys) && k <= |BlockIds(o, before, after)|
    ensures Listed(ChangeIn(o, before, after),
                   AllNodeChanges(o, NodeMap(before.nodes), NodeMap(after.nodes), BlockIds(o, before, after), k),
                   places, Place(0, 0, 0), Place(0, k, 0))
  {
    hide Sorts, NodeChanges, NodeMap, Listed, ChangeIn, BlockIds;
    var due := ChangeIn(o, before, after);
    if k == 0 {
      NoneListed(due, Place(0, 0, 0));
      places := [];
    } else {
      var id := BlockIds(o, before, after)[k - 1];
      var earlier := BlocksListed(o, before, after, k - 1);
      var own := BlockListed(o, before, after, k - 1);
      JoinListed(due, AllNodeChanges(o, NodeMap(before.nodes), NodeMap(after.nodes), BlockIds(o, before, after), k - 1),
                 earlier, Place(0, 0, 0), Place(0, k - 1, 0),
                 NodeChanges(o, MapGet(NodeMap(before.nodes), id), MapGet(NodeMap(after.nodes), id)), own,
                 Place(0, k, 0));
      places := earlier + own;
    }
  }

  // ----- connections -----

  lemma ConnectionTold(o: Orders, before: map<string, Node>, after: map<string, Node>, left: Option<Edge>,
                       right: Option<Edge>) returns (told: bool, change: Change)
    requires Sorts(o.keys)
    ensures EdgeChanges(o, before, after, left, right) == if told then [change] else []
    ensures forall c :: ConnectionChange(before, after, left, right, c) <==> told && c == change
  {
    var changes := EdgeChanges(o, before, after, left, right);
    assert |changes| <= 1;
    hide Sorts, EdgeChanges, ConnectionChange;
    told := changes != [];
    change := if told then changes[0] else Change(Added, "", "", None, None);
    forall c ensures ConnectionChange(before, after, left, right, c) <==> told && c == change {
      ConnectionChangesHold(o, before, after, left, right, c);
    }
  }

  /** A connection has one rule. */
  lemma SingleListed(due: (Place, Change) -> bool, told: bool, c: Change, i: nat) returns (places: seq<Place>)
    requires forall rule: nat, t :: due(Place(1, i, rule), t) <==> rule == 0 && told && t == c
    ensures Listed(due, if told then [c] else [], places, Place(1, i, 0), Place(1, i + 1, 0))
  {
    hide Listed;
    OneListed(due, told, c, Place(1, i, 0));
    places := if told then [Place(1, i, 0)] else [];
    WidenListed(due, if told then [c] else [], places, Place(1, i, 0), Later(Place(1, i, 0), 1), Place(1, i + 1, 0));
  }

  lemma ConnectionListed(o: Orders, before: Graph, after: Graph, i: nat) returns (places: seq<Place>)
    requires Sorts(o.ids) && Sorts(o.keys) && i < |ConnectionIds(o, before, after)|
    ensures var id := ConnectionIds(o, before, after)[i];
      Listed(ChangeIn(o, before, after),
             EdgeChanges(o, NodeMap(before.nodes), NodeMap(after.nodes), MapGet(EdgeMap(before.edges), id),
                         MapGet(EdgeMap(after.edges), id)), places, Place(1, i, 0), Place(1, i + 1, 0))
  {
    var id := ConnectionIds(o, before, after)[i];
    var due := ChangeIn(o, before, after);
    var told, c := ConnectionTold(o, NodeMap(before.nodes), NodeMap(after.nodes), MapGet(EdgeMap(before.edges), id),
      MapGet(EdgeMap(after.edges), id));
    hide Sorts, EdgeChanges, ConnectionChange, NodeMap, EdgeMap, Listed, ConnectionIds;
    forall rule: nat, t ensures due(Place(1, i, rule), t) <==> rule == 0 && told && t == c {
      assert due(Place(1, i, rule), t) <==> rule == 0 && ConnectionChanged(before, after, id, t);
    }
    hide ChangeIn;
    places := SingleListed(due, told, c, i);
  }

  lemma {:induction false} ConnectionsListed(o: Orders, before: Graph, after: Graph, k: nat)
    returns (places: seq<Place>)
    requires Sorts(o.ids) && Sorts(o.keys) && k <= |ConnectionIds(o, before, after)|
    ensures Listed(ChangeIn(o, before, after),
                   AllEdgeChanges(o, NodeMap(before.nodes), NodeMap(after.nodes), EdgeMap(before.edges),
                                  EdgeMap(after.edges), ConnectionIds(o, before, after), k),
                   places, Place(1, 0, 0), Place(1, k, 0))
  {
    hide Sorts, EdgeChanges, NodeMap, EdgeMap, Listed, ChangeIn, ConnectionIds;
    var due := ChangeIn(o, before, after);
    if k == 0 {
      NoneListed(due, Place(1, 0, 0));
      places := [];
    } else {
      var ids := ConnectionIds(o, before, after);
      var previous, next, left, right := NodeMap(before.nodes), NodeMap(after.nodes), EdgeMap(before.edges),
        EdgeMap(after.edges);
      var earlier := ConnectionsListed(o, before, after, k - 1);
      var own := ConnectionListed(o, before, after, k - 1);
      JoinListed(due, AllEdgeChanges(o, previous, next, left, right, ids, k - 1), earlier, Place(1, 0, 0),
                 Place(1, k - 1, 0),
                 EdgeChanges(o, previous, next, MapGet(left, ids[k - 1]), MapGet(right, ids[k - 1])), own,
                 Place(1, k, 0));
      places := earlier + own;
    }
  }

  // ----- the whole list -----

  lemma NoMoreBlocks(o: Orders, before: Graph, after: Graph, i: nat, rule: nat, c: Change)
    ensures i >= |BlockIds(o, before, after)| ==> !BlockAt(o, before, after, i, rule, c)
  {
    hide NodeMap, BlockTells;
  }

  lemma NoMoreConnections(o: Orders, before: Graph, after: Graph, i: nat, c: Change)
    ensures i >= |ConnectionIds(o, before, after)| ==> !ConnectionAt(o, before, after, i, c)
  {
    hide EdgeMap, ConnectionChanged;
  }

  /** The list holds exactly the changes that are due, in the order of their places. */
  lemma ChangesAreInOrder(o: Orders, before: Graph, after: Graph) returns (places: seq<Place>)
    requires Sorts(o.ids) && Sorts(o.keys)
    ensures |places| == |Changes(o, before, after)|
    ensures forall k | 0 <= k < |places| :: ChangeAt(o, before, after, places[k], Changes(o, before, after)[k])
    ensures forall i, j | 0 <= i < j < |places| :: Before(places[i], places[j])
    ensures forall p, c | ChangeAt(o, before, after, p, c) :: p in places
  {
    hide Sorts, NodeMap, EdgeMap, Listed, AllNodeChanges, AllEdgeChanges, ChangeIn, BlockAt, ConnectionAt;
    var due, ids, edgeIds := ChangeIn(o, before, after), BlockIds(o, before, after), ConnectionIds(o, before, after);
    var previous, next, left, right := NodeMap(before.nodes), NodeMap(after.nodes), EdgeMap(before.edges),
      EdgeMap(after.edges);
    var blocks := BlocksListed(o, before, after, |ids|);
    var connections := ConnectionsListed(o, before, after, |edgeIds|);
    var xs := AllNodeChanges(o, previous, next, ids, |ids|);
    var ys := AllEdgeChanges(o, previous, next, left, right, edgeIds, |edgeIds|);
    forall p, c | Within(p, Place(0, |ids|, 0), Place(1, 0, 0)) ensures !due(p, c) {
      NoMoreBlocks(o, before, after, p.element, p.rule, c);
    }
    forall p, c | Within(p, Place(1, |edgeIds|, 0), Place(2, 0, 0)) ensures !due(p, c) {
      NoMoreConnections(o, before, after, p.element, c);
    }
    WidenListed(due, xs, blocks, Place(0, 0, 0), Place(0, |ids|, 0), Place(1, 0, 0));
    JoinListed(due, xs, blocks, Place(0, 0, 0), Place(1, 0, 0), ys, connections, Place(1, |edgeIds|, 0));
    WidenListed(due, xs + ys, blocks + connections, Place(0, 0, 0), Place(1, |edgeIds|, 0), Place(2, 0, 0));
    places := blocks + connections;
    assert Changes(o, before, after) == xs + ys;
    AllPlacesCount(o, before, after, xs + ys, places);
  }

  lemma AllPlacesCount(o: Orders, before: Graph, after: Graph, changes: seq<Change>, places: seq<Place>)
    requires Listed(ChangeIn(o, before, after), changes, places, Place(0, 0, 0), Place(2, 0, 0))
    ensures |places| == |changes|
    ensures forall k | 0 <= k < |places| :: ChangeAt(o, before, after, places[k], changes[k])
    ensures forall i, j | 0 <= i < j < |places| :: Before(places[i], places[j])
    ensures forall p, c | ChangeAt(o, before, after, p, c) :: p in places
  {
    hide BlockAt, ConnectionAt;
    forall p, c | ChangeAt(o, before, after, p, c) ensures p in places {
      assert Within(p, Place(0, 0, 0), Place(2, 0, 0));
      assert ChangeIn(o, before, after)(p, c);
    }
  }

  /** A repeated id stands for the last block that has it. */
  lemma {:induction false} LastBlockCounts(nodes: seq<Node>, i: nat)
    requires i < |nodes| && forall j | i < j < |nodes| :: nodes[j].id != nodes[i].id
    ensures nodes[i].id in NodeMap(nodes) && NodeMap(nodes)[nodes[i].id] == nodes[i]
  {
    var n := |nodes| - 1;
    if i < n {
      LastBlockCounts(nodes[..n], i);
      assert nodes[n].id != nodes[i].id;
    }
  }

  lemma {:induction false} LastConnectionCounts(edges: seq<Edge>, i: nat)
    requires i < |edges| && forall j | i < j < |edges| :: edges[j].id != edges[i].id
    ensures edges[i].id in EdgeMap(edges) && EdgeMap(edges)[edges[i].id] == edges[i]
  {
    var n := |edges| - 1;
    if i < n {
      forall j | i < j < n ensures edges[..n][j].id != edges[..n][i].id {
        assert edges[..n][j] == edges[j];
      }
      LastConnectionCounts(edges[..n], i);
      assert edges[n].id != edges[i].id;
    }
    hide EdgeMap;
  }
}
