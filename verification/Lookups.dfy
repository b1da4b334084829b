/**
 `find` of the flow language and of the embedded session: each lookup returns the first element that matches, however
 many there are.
 */
module Lookups {
  import opened Wrappers
  import opened FlowGraph
  import E = EmbedProtocol

  lemma {:induction false} FirstNode(nodes: seq<Node>, id: string, i: nat)
    requires i < |nodes| && nodes[i].id == id && forall j | 0 <= j < i :: nodes[j].id != id
    ensures FindNode(nodes, id) == Some(nodes[i])
  {
    if i > 0 {
      assert nodes[0].id != id;
      forall j | 0 <= j < i - 1 ensures nodes[1..][j].id != id { assert nodes[1..][j] == nodes[j + 1]; }
      FirstNode(nodes[1..], id, i - 1);
    }
  }

  lemma {:induction false} FirstOfKind(nodes: seq<Node>, kind: NodeKind, i: nat)
    requires i < |nodes| && nodes[i].kind == kind && forall j | 0 <= j < i :: nodes[j].kind != kind
    ensures FindKind(nodes, kind) == Some(nodes[i])
  {
    if i > 0 {
      assert nodes[0].kind != kind;
      forall j | 0 <= j < i - 1 ensures nodes[1..][j].kind != kind { assert nodes[1..][j] == nodes[j + 1]; }
      FirstOfKind(nodes[1..], kind, i - 1);
    }
  }

  predicate Leaves(e: Edge, source: string, port: string) {
    e.source == source && e.port == port
  }

  lemma {:induction false} FirstEdge(edges: seq<Edge>, source: string, port: string, i: nat)
    requires i < |edges| && Leaves(edges[i], source, port) && forall j | 0 <= j < i :: !Leaves(edges[j], source, port)
    ensures FindEdge(edges, source, port) == Some(edges[i])
  {
    if i > 0 {
      assert !Leaves(edges[0], source, port);
      forall j | 0 <= j < i - 1 ensures !Leaves(edges[1..][j], source, port) { assert edges[1..][j] == edges[j + 1]; }
      FirstEdge(edges[1..], source, port, i - 1);
    }
  }

  lemma {:induction false} FirstOption(options: seq<MenuOption>, value: string, i: nat)
    requires i < |options| && options[i].value == value && forall j | 0 <= j < i :: options[j].value != value
    ensures FindOption(options, value) == Some(options[i])
  {
    if i > 0 {
      assert options[0].value != value;
      forall j | 0 <= j < i - 1 ensures options[1..][j].value != value { assert options[1..][j] == options[j + 1]; }
      FirstOption(options[1..], value, i - 1);
    }
  }

  lemma {:induction false} FirstInInbox(connections: seq<E.Connection>, inboxId: nat, i: nat)
    requires i < |connections| && connections[i].inboxId == inboxId
    requires forall j | 0 <= j < i :: connections[j].inboxId != inboxId
    ensures E.FindInbox(connections, inboxId) == Some(connections[i])
  {
    if i > 0 {
      assert connections[0].inboxId != inboxId;
      forall j | 0 <= j < i - 1 ensures connections[1..][j].inboxId != inboxId {
        assert connections[1..][j] == connections[j + 1];
      }
      FirstInInbox(connections[1..], inboxId, i - 1);
    }
  }

  lemma {:induction false} FirstConnection(connections: seq<E.Connection>, id: string, i: nat)
    requires i < |connections| && connections[i].integrationId == id
    requires forall j | 0 <= j < i :: connections[j].integrationId != id
    ensures E.FindConnection(connections, id) == Some(connections[i])
  {
    if i > 0 {
      assert connections[0].integrationId != id;
      forall j | 0 <= j < i - 1 ensures connections[1..][j].integrationId != id {
        assert connections[1..][j] == connections[j + 1];
      }
      FirstConnection(connections[1..], id, i - 1);
    }
  }

  /** A granted session begins with the first connection of the context's inbox, or the first of all without one. */
  lemma ChoiceIsFirst(context: Option<E.Context>, connections: seq<E.Connection>, i: nat)
    requires i < |connections|
    requires context.None? ==> i == 0
    requires context.Some? ==> connections[i].inboxId == context.value.inboxId
    requires context.Some? ==> forall j | 0 <= j < i :: connections[j].inboxId != context.value.inboxId
    ensures E.FirstChoice(context, connections) == connections[i].integrationId
  {
    if context.Some? { FirstInInbox(connections, context.value.inboxId, i); }
  }
}
