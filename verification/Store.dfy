/** The in-memory store: a list of subscriptions and a metadata map, updated by transactions that
    work on a copy and are swapped in only when their callback succeeds. */
module Store {
  import opened Sequences
  import opened Subscriptions

  type Items = seq<Subscription>

  ghost predicate UniqueIds(items: Items) {
    NoDup(Map(SubscriptionId, items))
  }

  /** The ID-to-subscription map a list of items stands for. */
  function Contents(items: Items): (m: map<string, Subscription>)
    ensures forall id :: id in m <==> id in Map(SubscriptionId, items)
    ensures forall id :: id in m ==> m[id].id == id && m[id] in items
  {
    if items == [] then map[]
    else
      var init, last := items[..|items| - 1], items[|items| - 1];
      assert items == init + [last];
      MapAppend(SubscriptionId, init, last);
      AppendMembers(Map(SubscriptionId, init), last.id);
      Contents(init)[last.id := last]
  }

  lemma {:induction false} ContentsAt(items: Items, i: nat)
    requires UniqueIds(items) && i < |items|
    ensures items[i].id in Contents(items) && Contents(items)[items[i].id] == items[i]
  {
    var init, last := items[..|items| - 1], items[|items| - 1];
    assert items == init + [last];
    MapAppend(SubscriptionId, init, last);
    NoDupAppend(Map(SubscriptionId, init), last.id);
    if i < |init| {
      ContentsAt(init, i);
      MapIn(SubscriptionId, init, init[i]);
    }
  }

  /** Contents determined by members: the list's order does not show. */
  lemma ContentsAre(items: Items, m: map<string, Subscription>)
    requires UniqueIds(items)
    requires forall id :: id in m <==> id in Map(SubscriptionId, items)
    requires forall s :: s in items ==> s.id in m && m[s.id] == s
    ensures Contents(items) == m
  {
    forall id | id in m ensures id in Contents(items) && Contents(items)[id] == m[id] {
      assert Contents(items)[id] in items && Contents(items)[id].id == id;
    }
    SameMap(Contents(items), m);
  }

  lemma SameMap<V>(a: map<string, V>, b: map<string, V>)
    requires (forall id :: id in a <==> id in b) && forall id :: id in b ==> a[id] == b[id]
    ensures a == b
  {
  }

  /** What a transaction's callback does to its transaction, up to the point where it fails. */
  datatype TxOp = Put(item: Subscription) | Delete(id: string) | SetMetadata(key: string, value: string) | Abort

  function ApplyItem(m: map<string, Subscription>, op: TxOp): map<string, Subscription> {
    match op
    case Put(item) => m[item.id := item]
    case Delete(id) => m - {id}
    case _ => m
  }

  function ApplyMetadata(m: map<string, string>, op: TxOp): map<string, string> {
    match op
    case SetMetadata(key, value) => m[key := value]
    case _ => m
  }

  function RunItems(m: map<string, Subscription>, script: seq<TxOp>): map<string, Subscription> {
    if script == [] then m else ApplyItem(RunItems(m, script[..|script| - 1]), script[|script| - 1])
  }

  function RunMetadata(m: map<string, string>, script: seq<TxOp>): map<string, string> {
    if script == [] then m else ApplyMetadata(RunMetadata(m, script[..|script| - 1]), script[|script| - 1])
  }

  lemma PutContents(items: Items, i: nat, item: Subscription)
    requires UniqueIds(items) && i < |items| && items[i].id == item.id
    ensures var after := items[i := item];
            UniqueIds(after) && Map(SubscriptionId, after) == Map(SubscriptionId, items)
            && Contents(after) == Contents(items)[item.id := item]
  {
    var after := items[i := item];
    assert Map(SubscriptionId, after) == Map(SubscriptionId, items);
    forall s | s in after ensures Contents(items)[item.id := item][s.id] == s {
      var k :| 0 <= k < |after| && after[k] == s;
      if k != i {
        ContentsAt(items, k);
        assert Map(SubscriptionId, items)[k] != Map(SubscriptionId, items)[i];
      }
    }
    assert Map(SubscriptionId, items)[i] == item.id;
    ContentsAre(after, Contents(items)[item.id := item]);
  }

  lemma AppendContents(items: Items, item: Subscription)
    requires UniqueIds(items) && item.id !in Map(SubscriptionId, items)
    ensures var after := items + [item];
            UniqueIds(after) && Map(SubscriptionId, after) == Map(SubscriptionId, items) + [item.id]
            && Contents(after) == Contents(items)[item.id := item]
  {
    MapAppend(SubscriptionId, items, item);
    NoDupAppend(Map(SubscriptionId, items), item.id);
    assert (items + [item])[..|items|] == items;
  }

  lemma DeleteContents(items: Items, i: nat)
    requires UniqueIds(items) && i < |items|
    ensures var after := RemoveAt(items, i);
            UniqueIds(after) && Map(SubscriptionId, after) == RemoveAt(Map(SubscriptionId, items), i)
            && Contents(after) == Contents(items) - {items[i].id}
  {
    var after := RemoveAt(items, i);
    MapRemoveAt(SubscriptionId, items, i);
    RemovedMembers(Map(SubscriptionId, items), i);
    RemovedMembers(items, i);
    forall s | s in after ensures s.id != items[i].id && s.id in Contents(items) && Contents(items)[s.id] == s {
      MapIn(SubscriptionId, after, s);
      var k :| 0 <= k < |items| && items[k] == s;
      ContentsAt(items, k);
    }
    ContentsAre(after, Contents(items) - {items[i].id});
  }

  function WithId(id: string): Subscription -> bool { (s: Subscription) => s.id == id }

  /** The list without the first record of this ID. */
  function WithoutFirst(items: Items, id: string): Items {
    var i := FindFirst(WithId(id), items);
    if i < |items| then RemoveAt(items, i) else items
  }

  /** Removing the first record of an ID is removing the ID. */
  lemma FirstFound(items: Items, i: nat, id: string)
    requires UniqueIds(items) && i < |items| && items[i].id == id && forall k :: 0 <= k < i ==> items[k].id != id
    ensures var after := RemoveAt(items, i);
            UniqueIds(after) && Contents(after) == Contents(items) - {id} && after == WithoutFirst(items, id)
  {
    FindFirstIs(WithId(id), items, i);
    DeleteContents(items, i);
  }

  lemma NoneFound(items: Items, id: string)
    requires forall k :: 0 <= k < |items| ==> items[k].id != id
    ensures Contents(items) - {id} == Contents(items) && items == WithoutFirst(items, id)
  {
    FindFirstIs(WithId(id), items, |items|);
    RemoveAbsent(Contents(items), id);
  }

  lemma RemoveAbsent<V>(m: map<string, V>, id: string)
    requires id !in m
    ensures m - {id} == m
  {
  }

  class MemoryStoreTx {
    var items: Items
    var metadata: map<string, string>

    constructor (items: Items, metadata: map<string, string>)
      ensures this.items == items && this.metadata == metadata
    {
      this.items, this.metadata := items, metadata;
    }

    /** Map update; an existing record keeps its place in the list, a new one goes to the end. */
    method Put(item: Subscription)
      requires UniqueIds(items)
      modifies this`items
      ensures UniqueIds(items) && Contents(items) == old(Contents(items))[item.id := item]
      ensures var ids := old(Map(SubscriptionId, items));
              Map(SubscriptionId, items) == if item.id in ids then ids else ids + [item.id]
    {
      ghost var ids := Map(SubscriptionId, items);
      for index := 0 to |items|
        invariant items == old(items)
        invariant forall k :: 0 <= k < index ==> ids[k] != item.id
      {
        if items[index].id == item.id {
          PutContents(items, index, item);
          assert ids[index] == item.id;
          items := items[index := item];
          return;
        }
      }
      AppendContents(items, item);
      items := items + [item];
    }

    /** Map removal; the other records keep their order. */
    method Delete(id: string)
      requires UniqueIds(items)
      modifies this`items
      ensures UniqueIds(items) && Contents(items) == old(Contents(items)) - {id}
      ensures items == WithoutFirst(old(items), id)
    {
      for index := 0 to |items|
        invariant items == old(items)
        invariant forall k :: 0 <= k < index ==> items[k].id != id
      {
        if items[index].id == id {
          FirstFound(items, index, id);
          items := RemoveAt(items, index);
          return;
        }
      }
      NoneFound(items, id);
    }

    method SetMetadata(key: string, value: string)
      modifies this`metadata
      ensures metadata == old(metadata)[key := value]
    {
      metadata := metadata[key := value];
    }

    /** One step of a callback; `false` is the error it returns. */
    method Apply(op: TxOp) returns (ok: bool)
      requires UniqueIds(items)
      modifies this
      ensures ok <==> !op.Abort?
      ensures UniqueIds(items)
      ensures Contents(items) == ApplyItem(old(Contents(items)), op) && metadata == ApplyMetadata(old(metadata), op)
    {
      ok := true;
      match op {
        case Put(item) => Put(item);
        case Delete(id) => Delete(id);
        case SetMetadata(key, value) => SetMetadata(key, value);
        case Abort => ok := false;
      }
    }
  }

  class MemoryStore {
    var items: Items
    var metadata: map<string, string>

    ghost predicate Valid()
      reads this
    {
      UniqueIds(items)
    }

    constructor ()
      ensures Valid() && Contents(items) == map[] && metadata == map[]
    {
      items, metadata := [], map[];
    }

    method Load() returns (stored: Items)
      requires Valid()
      ensures stored == items
    {
      stored := items;
    }

    /** Runs the callback on a copy. A cancelled context, or an error at any point of the callback,
        leaves every item and metadata value as it was. */
    method Update(cancelled: bool, script: seq<TxOp>) returns (ok: bool)
      requires Valid()
      modifies this
      ensures Valid()
      ensures ok <==> !cancelled && Abort !in script
      ensures !ok ==> items == old(items) && metadata == old(metadata)
      ensures ok ==> Contents(items) == RunItems(old(Contents(items)), script)
      ensures ok ==> metadata == RunMetadata(old(metadata), script)
    {
      if cancelled {
        return false;
      }
      var tx := new MemoryStoreTx(items, metadata);
      for k := 0 to |script|
        invariant unchanged(this) && UniqueIds(tx.items)
        invariant Abort !in script[..k]
        invariant Contents(tx.items) == RunItems(Contents(items), script[..k])
        invariant tx.metadata == RunMetadata(metadata, script[..k])
      {
        TakeStep(script, k);
        assert script[..k + 1][..k] == script[..k];
        var applied := tx.Apply(script[k]);
        if !applied {
          return false;
        }
      }
      assert script[..|script|] == script;
      items, metadata := tx.items, tx.metadata;
      return true;
    }
  }
}
