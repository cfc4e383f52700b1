/** The node pool: one snapshot's enabled subscriptions assembled into one list sorted by ID. */
module NodePool {
  import opened Text
  import opened Sequences
  import opened RuntimeModel
  import opened Validation
  import opened Identity
  import opened Subscriptions
  import opened RuntimeConfig
  import opened Commitments

  type Snapshot = map<string, Subscription>

  /** Every entry is filed under its own ID and its nodes are as `WithSource` leaves them. */
  ghost predicate Profiled(codec: Codec, items: Snapshot) {
    forall id :: id in items ==> ProfileOk(codec, id, items[id])
  }

  ghost predicate ProfileOk(codec: Codec, id: string, item: Subscription) {
    item.id == id && WithSource(codec, item.nodes, id) == item.nodes
  }

  function EnabledNodes(items: Snapshot): string -> seq<Node> {
    (id: string) => if id in items && items[id].enabled then items[id].nodes else []
  }

  /** The pool when the map is iterated in the given order. */
  function PoolNodes(items: Snapshot, order: seq<string>): seq<Node> {
    Sort(IdBefore, Flatten(Map(EnabledNodes(items), order)))
  }

  ghost predicate IterationOrder(items: Snapshot, order: seq<string>) {
    NoDup(order) && forall id :: id in order <==> id in items
  }

  method ReadNodePool(items: Snapshot, revisionOf: seq<Node> -> string) returns (pool: Pool, ghost order: seq<string>)
    ensures IterationOrder(items, order)
    ensures pool.nodes == PoolNodes(items, order) && pool.revision == revisionOf(pool.nodes)
  {
    var ids := Enumerate(items.Keys);
    order := ids;
    var nodes: seq<Node> := [];
    for i := 0 to |ids|
      invariant nodes == Flatten(Map(EnabledNodes(items), ids[..i]))
    {
      MapPrefix(EnabledNodes(items), ids, i);
      FlattenAppend(Map(EnabledNodes(items), ids[..i]), EnabledNodes(items)(ids[i]));
      assert ids[i] in ids;
      if items[ids[i]].enabled {
        nodes := nodes + items[ids[i]].nodes;
      }
    }
    assert ids[..|ids|] == ids;
    nodes := Sort(IdBefore, nodes);
    pool := Pool(revisionOf(nodes), nodes);
  }

  /** A node of some enabled subscription. */
  ghost predicate Pooled(items: Snapshot, n: Node) {
    exists id :: id in items && items[id].enabled && n in items[id].nodes
  }

  lemma PoolMembers(items: Snapshot, order: seq<string>, n: Node)
    requires forall id :: id in order <==> id in items
    ensures n in PoolNodes(items, order) <==> Pooled(items, n)
  {
    var lists := Map(EnabledNodes(items), order);
    SortMembers(IdBefore, Flatten(lists));
    FlattenMember(lists, n);
    if Pooled(items, n) {
      var id :| id in items && items[id].enabled && n in items[id].nodes;
      var k :| 0 <= k < |order| && order[k] == id;
      assert n in lists[k];
    }
    if k :| 0 <= k < |lists| && n in lists[k] {
      assert order[k] in order;
      assert n in items[order[k]].nodes;
    }
  }

  /** Nodes of two subscriptions never share an ID. */
  lemma AcrossSubscriptions(codec: Codec, items: Snapshot, a: string, b: string, m: Node, n: Node)
    requires Sound(codec) && Profiled(codec, items) && a in items && b in items
    requires m in items[a].nodes && n in items[b].nodes && m.id == n.id
    ensures a == b
  {
    WithSourceFixed(codec, items[a].nodes, a);
    WithSourceFixed(codec, items[b].nodes, b);
    KeyInjective(codec, a, m.outboundJson, b, n.outboundJson);
  }

  lemma {:induction false} DistinctIds(codec: Codec, items: Snapshot, order: seq<string>)
    requires Sound(codec) && Profiled(codec, items) && NoDup(order)
    ensures NoDup(Map(IdOf, Flatten(Map(EnabledNodes(items), order))))
  {
    if order != [] {
      var first, rest := EnabledNodes(items)(order[0]), Flatten(Map(EnabledNodes(items), order[1..]));
      NoDupCons(order);
      DistinctIds(codec, items, order[1..]);
      OwnIdsDistinct(codec, items, order[0]);
      forall id | id in Map(IdOf, first) ensures id !in Map(IdOf, rest) {
        if id in Map(IdOf, rest) {
          SharedId(codec, items, order[0], order[1..], id);
        }
      }
      NoDupConcat(Map(IdOf, first), Map(IdOf, rest));
      MapConcat(IdOf, first, rest);
      assert Map(EnabledNodes(items), order)[1..] == Map(EnabledNodes(items), order[1..]);
    }
  }

  lemma OwnIdsDistinct(codec: Codec, items: Snapshot, id: string)
    requires Profiled(codec, items)
    ensures NoDup(Map(IdOf, EnabledNodes(items)(id)))
  {
    if id in items {
      WithSourceFixed(codec, items[id].nodes, id);
      StrictlySortedDistinct(items[id].nodes);
    }
  }

  lemma SharedId(codec: Codec, items: Snapshot, a: string, rest: seq<string>, id: string)
    requires Sound(codec) && Profiled(codec, items)
    requires id in Map(IdOf, EnabledNodes(items)(a)) && id in Map(IdOf, Flatten(Map(EnabledNodes(items), rest)))
    ensures a in rest
  {
    var m := MapOrigin(IdOf, EnabledNodes(items)(a), id);
    var lists := Map(EnabledNodes(items), rest);
    var n := MapOrigin(IdOf, Flatten(lists), id);
    FlattenMember(lists, n);
    var k :| 0 <= k < |lists| && n in lists[k];
    AcrossSubscriptions(codec, items, a, rest[k], m, n);
  }

  lemma PoolSorted(codec: Codec, items: Snapshot, order: seq<string>)
    requires Sound(codec) && Profiled(codec, items) && NoDup(order)
    ensures StrictlySorted(PoolNodes(items, order))
  {
    var nodes, unsorted := PoolNodes(items, order), Flatten(Map(EnabledNodes(items), order));
    DistinctIds(codec, items, order);
    IdOrder(unsorted);
    SortSorted(IdBefore, unsorted);
    MapPermutation(IdOf, nodes, unsorted);
    NoDupPermutation(Map(IdOf, nodes), Map(IdOf, unsorted));
    SortedDistinct(nodes);
  }

  lemma PooledHex(codec: Codec, items: Snapshot, n: Node)
    requires Sound(codec) && Profiled(codec, items) && Pooled(items, n)
    ensures IsHex(n.id)
  {
    var id :| id in items && items[id].enabled && n in items[id].nodes;
    WithSourceFixed(codec, items[id].nodes, id);
    IdentifiedHex(codec, items[id].nodes, id, n);
  }

  lemma IdentifiedHex(codec: Codec, nodes: seq<Node>, id: string, n: Node)
    requires Sound(codec) && Identified(codec, nodes, id) && n in nodes
    ensures IsHex(n.id)
  {
    DigestIsHex(codec, id + NUL + codec.marshal(Untagged(n.outboundJson)));
  }

  lemma DigestIsHex(codec: Codec, s: string)
    requires Sound(codec)
    ensures IsHex(codec.digest(s))
  {
  }

  /** The pool is strictly sorted by ID, has distinct hexadecimal IDs, and holds exactly the nodes of
      the enabled subscriptions. */
  lemma PoolWellFormed(codec: Codec, items: Snapshot, order: seq<string>)
    requires Sound(codec) && Profiled(codec, items) && IterationOrder(items, order)
    ensures StrictlySorted(PoolNodes(items, order)) && HexPool(PoolNodes(items, order))
    ensures forall n :: n in PoolNodes(items, order) <==> Pooled(items, n)
  {
    PoolSorted(codec, items, order);
    StrictlySortedDistinct(PoolNodes(items, order));
    forall n ensures n in PoolNodes(items, order) <==> Pooled(items, n) {
      PoolMembers(items, order, n);
    }
    forall n | n in PoolNodes(items, order) ensures IsHex(n.id) {
      PooledHex(codec, items, n);
    }
  }

  /** The order in which the map happens to be iterated does not show. */
  lemma PoolOrderIrrelevant(codec: Codec, items: Snapshot, a: seq<string>, b: seq<string>)
    requires Sound(codec) && Profiled(codec, items) && IterationOrder(items, a) && IterationOrder(items, b)
    ensures PoolNodes(items, a) == PoolNodes(items, b)
  {
    PoolWellFormed(codec, items, a);
    PoolWellFormed(codec, items, b);
    StrictlySortedUnique(PoolNodes(items, a), PoolNodes(items, b));
  }
}
