/** Subscription-scoped node identity: `WithSource` derives each node's ID from its subscription and
    its connection settings, drops repeats, and sorts by ID. */
module Identity {
  import opened Text
  import opened Sequences
  import opened RuntimeModel
  import opened Validation

  /** JSON encoding and the hexadecimal SHA-256 digest, which the model does not define. */
  datatype Codec = Codec(marshal: RawJson -> string, digest: string -> string)

  const NUL := "\U{0}"

  predicate IsHex(s: string) {
    s != "" && forall i :: 0 <= i < |s| ==> '0' <= s[i] <= '9' || 'a' <= s[i] <= 'f'
  }

  /** Encoded JSON has no raw NUL, and neither encoding nor digest confuses two inputs. `Codecs` shows
      that this can be met. `json.Marshal` compacts and HTML-escapes the raw values it is given, so the
      values in a `RawJson` stand for compacted and HTML-escaped text, on which encoding is injective. */
  ghost predicate Sound(codec: Codec) {
    && (forall j :: '\U{0}' !in codec.marshal(j))
    && (forall i, j :: codec.marshal(i) == codec.marshal(j) ==> i == j)
    && (forall s :: IsHex(codec.digest(s)))
    && (forall s, t :: codec.digest(s) == codec.digest(t) ==> s == t)
  }

  /** The settings an identity is made of: the outbound document without its tag. */
  function Untagged(j: RawJson): RawJson {
    if j.Object? then Object(j.fields - {"tag"}) else j
  }

  function NodeKey(codec: Codec, subscriptionId: string, j: RawJson): string {
    codec.digest(subscriptionId + NUL + codec.marshal(Untagged(j)))
  }

  predicate Decodes(n: Node) { !n.outboundJson.Malformed? }

  function Identify(codec: Codec, subscriptionId: string): Node -> Node {
    (n: Node) => n.(id := NodeKey(codec, subscriptionId, n.outboundJson), subscriptionId := subscriptionId)
  }

  predicate IdBefore(a: Node, b: Node) { Less(a.id, b.id) }

  /** Keeps the first node of each ID. */
  function FirstById(nodes: seq<Node>): (r: seq<Node>)
    ensures forall n :: n in r ==> n in nodes
    ensures forall n :: n in nodes ==> n.id in Map(IdOf, r)
    ensures NoDup(Map(IdOf, r))
  {
    if nodes == [] then []
    else
      var init, last := nodes[..|nodes| - 1], nodes[|nodes| - 1];
      var r := FirstById(init);
      assert nodes == init + [last];
      MapAppend(IdOf, r, last);
      NoDupAppend(Map(IdOf, r), last.id);
      if last.id in Map(IdOf, r) then r else r + [last]
  }

  function WithSource(codec: Codec, nodes: seq<Node>, subscriptionId: string): seq<Node> {
    Sort(IdBefore, FirstById(Map(Identify(codec, subscriptionId), Filter(Decodes, nodes))))
  }

  method ComputeWithSource(codec: Codec, nodes: seq<Node>, subscriptionId: string) returns (result: seq<Node>)
    ensures result == WithSource(codec, nodes, subscriptionId)
  {
    result := [];
    var seen: set<string> := {};
    ghost var identified: seq<Node> := [];
    for i := 0 to |nodes|
      invariant identified == Map(Identify(codec, subscriptionId), Filter(Decodes, nodes[..i]))
      invariant result == FirstById(identified)
      invariant forall id :: id in seen <==> id in Map(IdOf, result)
    {
      var node := nodes[i];
      FilterStep(Decodes, Identify(codec, subscriptionId), nodes, i);
      if node.outboundJson.Malformed? {
        continue;
      }
      node := node.(id := NodeKey(codec, subscriptionId, node.outboundJson), subscriptionId := subscriptionId);
      FirstByIdAppend(identified, node);
      identified := identified + [node];
      if node.id in seen {
        continue;
      }
      seen := seen + {node.id};
      MapAppend(IdOf, result, node);
      AppendMembers(Map(IdOf, result), node.id);
      result := result + [node];
    }
    assert nodes[..|nodes|] == nodes;
    result := Sort(IdBefore, result);
  }

  lemma FirstByIdAppend(nodes: seq<Node>, n: Node)
    ensures FirstById(nodes + [n]) == if n.id in Map(IdOf, FirstById(nodes)) then FirstById(nodes) else FirstById(nodes) + [n]
  {
    assert (nodes + [n])[..|nodes|] == nodes;
  }

  /******* Shape *******/

  lemma IdOrder(nodes: seq<Node>)
    ensures WeakOrder(IdBefore)
    ensures NoDup(Map(IdOf, nodes)) ==> TiesAreEqual(IdBefore, nodes)
  {
    forall x: Node, y: Node, z: Node
      ensures IdBefore(x, y) ==> !IdBefore(y, x)
      ensures !IdBefore(x, y) && !IdBefore(y, z) ==> !IdBefore(x, z)
      ensures !IdBefore(x, y) && !IdBefore(y, x) ==> x.id == y.id
    {
      LessIsOrder(x.id, y.id, z.id);
    }
    if NoDup(Map(IdOf, nodes)) {
      DistinctKeys(IdOf, nodes);
    }
  }

  ghost predicate StrictlySorted(nodes: seq<Node>) {
    forall i, j :: 0 <= i < j < |nodes| ==> Less(nodes[i].id, nodes[j].id)
  }

  /** A sorted list without repeated IDs is strictly sorted. */
  lemma SortedDistinct(nodes: seq<Node>)
    requires Sorted(IdBefore, nodes) && NoDup(Map(IdOf, nodes))
    ensures StrictlySorted(nodes)
  {
    forall i, j | 0 <= i < j < |nodes| ensures Less(nodes[i].id, nodes[j].id) {
      assert !IdBefore(nodes[j], nodes[i]);
      assert Map(IdOf, nodes)[i] != Map(IdOf, nodes)[j];
      LessTotal(nodes[i].id, nodes[j].id);
    }
  }

  lemma StrictlySortedDistinct(nodes: seq<Node>)
    requires StrictlySorted(nodes)
    ensures Sorted(IdBefore, nodes) && NoDup(Map(IdOf, nodes))
  {
    forall i, j | 0 <= i < j < |nodes| ensures !IdBefore(nodes[j], nodes[i]) && nodes[i].id != nodes[j].id {
      LessIsOrder(nodes[i].id, nodes[j].id, nodes[i].id);
    }
  }

  /** Two strictly sorted lists with the same members are the same list. */
  lemma StrictlySortedUnique(a: seq<Node>, b: seq<Node>)
    requires StrictlySorted(a) && StrictlySorted(b) && forall n :: n in a <==> n in b
    ensures a == b
  {
    StrictlySortedDistinct(a);
    StrictlySortedDistinct(b);
    DistinctMap(IdOf, a);
    DistinctMap(IdOf, b);
    SameSet(a, b);
    IdOrder(a);
    SortedUnique(IdBefore, a, b);
  }

  /** Every node carries the key of its own settings. */
  ghost predicate Identified(codec: Codec, nodes: seq<Node>, subscriptionId: string) {
    forall n :: n in nodes ==>
      && Decodes(n) && n.subscriptionId == subscriptionId
      && n.id == NodeKey(codec, subscriptionId, n.outboundJson)
  }

  lemma WithSourceShape(codec: Codec, nodes: seq<Node>, subscriptionId: string)
    ensures var r := WithSource(codec, nodes, subscriptionId);
            StrictlySorted(r) && Identified(codec, r, subscriptionId)
  {
    var identified := Map(Identify(codec, subscriptionId), Filter(Decodes, nodes));
    var first := FirstById(identified);
    var r := WithSource(codec, nodes, subscriptionId);
    IdOrder(first);
    SortSorted(IdBefore, first);
    SortMembers(IdBefore, first);
    MapPermutation(IdOf, r, first);
    NoDupPermutation(Map(IdOf, r), Map(IdOf, first));
    SortedDistinct(r);
    forall n | n in r
      ensures Decodes(n) && n.subscriptionId == subscriptionId && n.id == NodeKey(codec, subscriptionId, n.outboundJson)
    {
      var original := MapOrigin(Identify(codec, subscriptionId), Filter(Decodes, nodes), n);
    }
  }

  lemma {:induction false} FirstByIdDistinct(nodes: seq<Node>)
    requires NoDup(Map(IdOf, nodes))
    ensures FirstById(nodes) == nodes
  {
    if nodes != [] {
      var init, last := nodes[..|nodes| - 1], nodes[|nodes| - 1];
      assert nodes == init + [last];
      MapAppend(IdOf, init, last);
      NoDupAppend(Map(IdOf, init), last.id);
      FirstByIdDistinct(init);
    }
  }

  /** `WithSource` fixes exactly the strictly sorted lists of identified nodes. */
  lemma WithSourceFixed(codec: Codec, nodes: seq<Node>, subscriptionId: string)
    ensures WithSource(codec, nodes, subscriptionId) == nodes <==>
            StrictlySorted(nodes) && Identified(codec, nodes, subscriptionId)
  {
    WithSourceShape(codec, nodes, subscriptionId);
    if StrictlySorted(nodes) && Identified(codec, nodes, subscriptionId) {
      FilterAll(Decodes, nodes);
      MapFixed(Identify(codec, subscriptionId), nodes);
      StrictlySortedDistinct(nodes);
      FirstByIdDistinct(nodes);
      IdOrder(nodes);
      SortOfSorted(IdBefore, nodes);
    }
  }

  /** Re-applying `WithSource` changes nothing. */
  lemma WithSourceIdempotent(codec: Codec, nodes: seq<Node>, subscriptionId: string)
    ensures WithSource(codec, WithSource(codec, nodes, subscriptionId), subscriptionId) == WithSource(codec, nodes, subscriptionId)
  {
    WithSourceShape(codec, nodes, subscriptionId);
    WithSourceFixed(codec, WithSource(codec, nodes, subscriptionId), subscriptionId);
  }

  /******* What an identity depends on *******/

  /** The NUL separator cannot be confused with the encoded document that follows it. */
  lemma SeparatorInjective(a: string, b: string, x: string, y: string)
    requires '\U{0}' !in x && '\U{0}' !in y && a + NUL + x == b + NUL + y
    ensures a == b && x == y
  {
    var s, t := a + NUL + x, b + NUL + y;
    assert s[|a|] == '\U{0}' && t[|b|] == '\U{0}';
    assert forall k :: |a| < k < |s| ==> s[k] == x[k - |a| - 1];
    assert forall k :: |b| < k < |t| ==> t[k] == y[k - |b| - 1];
    assert |a| == |b|;
    assert a == s[..|a|] && b == t[..|a|];
    assert x == s[|a| + 1..] && y == t[|a| + 1..];
  }

  /** The documents are the same apart from the display name. */
  ghost predicate SameSettings(i: RawJson, j: RawJson) {
    if i.Object? && j.Object? then
      forall key :: key != "tag" ==>
        && (key in i.fields <==> key in j.fields)
        && (key in i.fields && key in j.fields ==> i.fields[key] == j.fields[key])
    else i == j
  }

  lemma UntaggedSame(i: RawJson, j: RawJson)
    ensures Untagged(i) == Untagged(j) <==> SameSettings(i, j)
  {
    if i.Object? && j.Object? {
      var a, b := i.fields - {"tag"}, j.fields - {"tag"};
      if a == b {
        forall key | key != "tag"
          ensures key in i.fields <==> key in j.fields
          ensures key in i.fields && key in j.fields ==> i.fields[key] == j.fields[key]
        {
          assert key in a <==> key in i.fields;
          assert key in b <==> key in j.fields;
        }
      }
      if SameSettings(i, j) {
        assert a.Keys == b.Keys;
      }
    }
  }

  /** Two nodes share an ID exactly when they share the subscription and every setting but the display name. */
  lemma KeyInjective(codec: Codec, a: string, i: RawJson, b: string, j: RawJson)
    requires Sound(codec)
    ensures NodeKey(codec, a, i) == NodeKey(codec, b, j) <==> a == b && SameSettings(i, j)
  {
    UntaggedSame(i, j);
    if NodeKey(codec, a, i) == NodeKey(codec, b, j) {
      var x, y := codec.marshal(Untagged(i)), codec.marshal(Untagged(j));
      assert codec.digest(a + NUL + x) == codec.digest(b + NUL + y);
      SeparatorInjective(a, b, x, y);
    }
  }

  /** Renaming a node does not change its ID, whatever the encoding and the digest. */
  lemma RenameKeepsKey(codec: Codec, subscriptionId: string, fields: map<string, string>, name: string)
    ensures NodeKey(codec, subscriptionId, Object(fields["tag" := name])) == NodeKey(codec, subscriptionId, Object(fields))
    ensures NodeKey(codec, subscriptionId, Object(fields["tag" := name])) == NodeKey(codec, subscriptionId, Object(fields - {"tag"}))
  {
    UntaggedSame(Object(fields["tag" := name]), Object(fields));
    UntaggedSame(Object(fields["tag" := name]), Object(fields - {"tag"}));
  }

  /******* Which nodes are kept *******/

  /** `n` is the node at `k` under its key, and no node before it has that key. */
  ghost predicate FirstOf(codec: Codec, nodes: seq<Node>, subscriptionId: string, n: Node, k: int) {
    && 0 <= k < |nodes| && !nodes[k].outboundJson.Malformed?
    && n == nodes[k].(id := NodeKey(codec, subscriptionId, nodes[k].outboundJson), subscriptionId := subscriptionId)
    && forall j :: 0 <= j < k && !nodes[j].outboundJson.Malformed? ==>
         NodeKey(codec, subscriptionId, nodes[j].outboundJson) != n.id
  }

  lemma FirstIds(codec: Codec, nodes: seq<Node>, subscriptionId: string, id: string)
    ensures id in Map(IdOf, FirstById(Map(Identify(codec, subscriptionId), Filter(Decodes, nodes)))) <==>
            exists k :: 0 <= k < |nodes| && Decodes(nodes[k]) && NodeKey(codec, subscriptionId, nodes[k].outboundJson) == id
  {
    var identify := Identify(codec, subscriptionId);
    var decoded := Filter(Decodes, nodes);
    var first := FirstById(Map(identify, decoded));
    if id in Map(IdOf, first) {
      var n := MapOrigin(IdOf, first, id);
      var original := MapOrigin(identify, decoded, n);
      var k :| 0 <= k < |nodes| && nodes[k] == original;
    }
    if k :| 0 <= k < |nodes| && Decodes(nodes[k]) && NodeKey(codec, subscriptionId, nodes[k].outboundJson) == id {
      MapIn(identify, decoded, nodes[k]);
    }
  }

  lemma {:induction false} FirstMembers(codec: Codec, nodes: seq<Node>, subscriptionId: string, n: Node)
    ensures n in FirstById(Map(Identify(codec, subscriptionId), Filter(Decodes, nodes))) <==>
            exists k :: FirstOf(codec, nodes, subscriptionId, n, k)
  {
    if nodes != [] {
      var init, last := nodes[..|nodes| - 1], nodes[|nodes| - 1];
      assert nodes == init + [last];
      FirstMembers(codec, init, subscriptionId, n);
      FirstExtends(codec, init, last, subscriptionId, n);
      FirstAppends(codec, init, last, subscriptionId, n);
    }
  }

  lemma FirstExtends(codec: Codec, init: seq<Node>, last: Node, subscriptionId: string, n: Node)
    ensures (exists k :: FirstOf(codec, init + [last], subscriptionId, n, k)) <==>
            (exists k :: FirstOf(codec, init, subscriptionId, n, k)) || FirstOf(codec, init + [last], subscriptionId, n, |init|)
  {
    forall k | 0 <= k < |init|
      ensures FirstOf(codec, init + [last], subscriptionId, n, k) <==> FirstOf(codec, init, subscriptionId, n, k)
    {
      assert forall j :: 0 <= j <= k ==> (init + [last])[j] == init[j];
    }
  }

  lemma LastFirst(codec: Codec, init: seq<Node>, last: Node, subscriptionId: string, n: Node)
    ensures FirstOf(codec, init + [last], subscriptionId, n, |init|) <==>
            && Decodes(last) && n == Identify(codec, subscriptionId)(last)
            && n.id !in Map(IdOf, FirstById(Map(Identify(codec, subscriptionId), Filter(Decodes, init))))
  {
    FirstIds(codec, init, subscriptionId, n.id);
    assert (init + [last])[|init|] == last;
    assert forall j :: 0 <= j < |init| ==> (init + [last])[j] == init[j];
  }

  lemma FirstAppends(codec: Codec, init: seq<Node>, last: Node, subscriptionId: string, n: Node)
    ensures var identify := Identify(codec, subscriptionId);
            n in FirstById(Map(identify, Filter(Decodes, init + [last]))) <==>
            n in FirstById(Map(identify, Filter(Decodes, init))) || FirstOf(codec, init + [last], subscriptionId, n, |init|)
  {
    var identify := Identify(codec, subscriptionId);
    var identified := Map(identify, Filter(Decodes, init));
    LastFirst(codec, init, last, subscriptionId, n);
    FilterAppend(Decodes, init, last);
    if Decodes(last) {
      MapAppend(identify, Filter(Decodes, init), last);
      FirstByIdAppend(identified, identify(last));
    }
  }

  /** The result holds, of the nodes whose document decodes, the first with each ID: under that ID and
      its subscription, and otherwise as it was. */
  lemma WithSourceMembers(codec: Codec, nodes: seq<Node>, subscriptionId: string, n: Node)
    ensures n in WithSource(codec, nodes, subscriptionId) <==> exists k :: FirstOf(codec, nodes, subscriptionId, n, k)
  {
    SortMembers(IdBefore, FirstById(Map(Identify(codec, subscriptionId), Filter(Decodes, nodes))));
    FirstMembers(codec, nodes, subscriptionId, n);
  }

  /******* The ID sequence *******/

  ghost predicate HasSettings(nodes: seq<Node>, settings: RawJson) {
    exists n :: n in nodes && Decodes(n) && SameSettings(n.outboundJson, settings)
  }

  /** An ID occurs exactly when some node's settings have it. */
  lemma WithSourceIds(codec: Codec, nodes: seq<Node>, subscriptionId: string, id: string)
    ensures id in Map(IdOf, WithSource(codec, nodes, subscriptionId)) <==>
            exists k :: 0 <= k < |nodes| && Decodes(nodes[k]) && NodeKey(codec, subscriptionId, nodes[k].outboundJson) == id
  {
    var first := FirstById(Map(Identify(codec, subscriptionId), Filter(Decodes, nodes)));
    FirstIds(codec, nodes, subscriptionId, id);
    MapPermutation(IdOf, WithSource(codec, nodes, subscriptionId), first);
    SameMembers(Map(IdOf, WithSource(codec, nodes, subscriptionId)), Map(IdOf, first));
  }

  /** The ID sequence is determined by the set of settings, and determines it: the order of the input
      and the display names do not matter, and nothing else is forgotten. */
  lemma IdSequence(codec: Codec, a: seq<Node>, b: seq<Node>, subscriptionId: string)
    requires Sound(codec)
    ensures Map(IdOf, WithSource(codec, a, subscriptionId)) == Map(IdOf, WithSource(codec, b, subscriptionId)) <==>
            forall settings :: HasSettings(a, settings) <==> HasSettings(b, settings)
  {
    forall settings
      ensures HasSettings(a, settings) <==> NodeKey(codec, subscriptionId, settings) in Map(IdOf, WithSource(codec, a, subscriptionId))
      ensures HasSettings(b, settings) <==> NodeKey(codec, subscriptionId, settings) in Map(IdOf, WithSource(codec, b, subscriptionId))
    {
      SettingsById(codec, a, subscriptionId, settings);
      SettingsById(codec, b, subscriptionId, settings);
    }
    if forall settings :: HasSettings(a, settings) <==> HasSettings(b, settings) {
      forall id ensures id in Map(IdOf, WithSource(codec, a, subscriptionId)) <==> id in Map(IdOf, WithSource(codec, b, subscriptionId)) {
        IdBySettings(codec, a, b, subscriptionId, id);
        IdBySettings(codec, b, a, subscriptionId, id);
      }
      SameIds(codec, a, b, subscriptionId);
    }
  }

  lemma SettingsById(codec: Codec, nodes: seq<Node>, subscriptionId: string, settings: RawJson)
    requires Sound(codec)
    ensures HasSettings(nodes, settings) <==> NodeKey(codec, subscriptionId, settings) in Map(IdOf, WithSource(codec, nodes, subscriptionId))
  {
    WithSourceIds(codec, nodes, subscriptionId, NodeKey(codec, subscriptionId, settings));
    forall k | 0 <= k < |nodes|
      ensures NodeKey(codec, subscriptionId, nodes[k].outboundJson) == NodeKey(codec, subscriptionId, settings) <==>
              SameSettings(nodes[k].outboundJson, settings)
    {
      KeyInjective(codec, subscriptionId, nodes[k].outboundJson, subscriptionId, settings);
    }
  }

  lemma IdBySettings(codec: Codec, a: seq<Node>, b: seq<Node>, subscriptionId: string, id: string)
    requires Sound(codec) && forall settings :: HasSettings(a, settings) ==> HasSettings(b, settings)
    ensures id in Map(IdOf, WithSource(codec, a, subscriptionId)) ==> id in Map(IdOf, WithSource(codec, b, subscriptionId))
  {
    WithSourceIds(codec, a, subscriptionId, id);
    if k :| 0 <= k < |a| && Decodes(a[k]) && NodeKey(codec, subscriptionId, a[k].outboundJson) == id {
      SettingsById(codec, a, subscriptionId, a[k].outboundJson);
      SettingsById(codec, b, subscriptionId, a[k].outboundJson);
    }
  }

  lemma SameIds(codec: Codec, a: seq<Node>, b: seq<Node>, subscriptionId: string)
    requires forall id :: id in Map(IdOf, WithSource(codec, a, subscriptionId)) <==> id in Map(IdOf, WithSource(codec, b, subscriptionId))
    ensures Map(IdOf, WithSource(codec, a, subscriptionId)) == Map(IdOf, WithSource(codec, b, subscriptionId))
  {
    var ra, rb := WithSource(codec, a, subscriptionId), WithSource(codec, b, subscriptionId);
    WithSourceShape(codec, a, subscriptionId);
    WithSourceShape(codec, b, subscriptionId);
    StrictlySortedDistinct(ra);
    StrictlySortedDistinct(rb);
    SameSet(Map(IdOf, ra), Map(IdOf, rb));
    StringOrder(Map(IdOf, ra));
    assert Sorted(Less, Map(IdOf, ra)) by {
      forall i, j | 0 <= i < j < |ra| ensures !Less(ra[j].id, ra[i].id) { assert !IdBefore(ra[j], ra[i]); }
    }
    assert Sorted(Less, Map(IdOf, rb)) by {
      forall i, j | 0 <= i < j < |rb| ensures !Less(rb[j].id, rb[i].id) { assert !IdBefore(rb[j], rb[i]); }
    }
    SortedUnique(Less, Map(IdOf, ra), Map(IdOf, rb));
  }
}
