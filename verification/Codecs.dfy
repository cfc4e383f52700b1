/** `Identity.Sound` can be met: an injective encoding of documents and strings. A character is its
    code in unary with an end mark, so nothing that follows can be confused with it. */
module Codecs {
  import opened RuntimeModel
  import opened Identity

  function Zeros(n: nat): (t: string)
    ensures |t| == n && forall i :: 0 <= i < n ==> t[i] == '0'
  {
    if n == 0 then "" else "0" + Zeros(n - 1)
  }

  ghost predicate Marks(s: string) {
    forall i :: 0 <= i < |s| ==> s[i] == '0' || s[i] == '1' || s[i] == 'a'
  }

  function Encode(s: string): (t: string)
    ensures t != "" && Marks(t)
  {
    if s == "" then "a" else Zeros(s[0] as nat) + "1" + Encode(s[1..])
  }

  /** An encoded string can be read off the front of a text. */
  lemma {:induction false} EncodePrefix(s: string, t: string, x: string, y: string)
    requires Encode(s) + x == Encode(t) + y
    ensures s == t && x == y
  {
    EncodeHead(s, x);
    EncodeHead(t, y);
    if s != "" && t != "" {
      var u, v := Encode(s[1..]) + x, Encode(t[1..]) + y;
      ZerosPrefix(s[0] as nat, t[0] as nat, u, v);
      EncodePrefix(s[1..], t[1..], x, y);
      assert s == [s[0]] + s[1..] && t == [t[0]] + t[1..];
    }
  }

  lemma EncodeHead(s: string, x: string)
    ensures s == "" ==> (Encode(s) + x)[0] == 'a' && (Encode(s) + x)[1..] == x
    ensures s != "" ==> Encode(s) + x == Zeros(s[0] as nat) + "1" + (Encode(s[1..]) + x) && (Encode(s) + x)[0] != 'a'
  {
    if s != "" {
      var zeros := Zeros(s[0] as nat);
      assert Encode(s) + x == zeros + "1" + (Encode(s[1..]) + x);
      assert (zeros + "1")[0] != 'a';
    }
  }

  lemma ZerosPrefix(m: nat, n: nat, x: string, y: string)
    requires Zeros(m) + "1" + x == Zeros(n) + "1" + y
    ensures m == n && x == y
  {
    var s, t := Zeros(m) + "1" + x, Zeros(n) + "1" + y;
    assert s[m] == '1' && t[n] == '1';
    assert forall i :: 0 <= i < m ==> s[i] == '0';
    assert forall i :: 0 <= i < n ==> t[i] == '0';
    assert m == n;
    assert x == s[m + 1..] && y == t[n + 1..];
  }

  /******* Documents *******/

  ghost predicate Lists(order: seq<string>, keys: set<string>) {
    forall k :: k in order <==> k in keys
  }

  lemma {:induction false} OrderExists(keys: set<string>)
    ensures exists order :: Lists(order, keys)
    decreases keys
  {
    if keys == {} {
      assert Lists([], keys);
    } else {
      var k :| k in keys;
      OrderExists(keys - {k});
      var order :| Lists(order, keys - {k});
      assert Lists([k] + order, keys);
    }
  }

  ghost function KeyOrder(keys: set<string>): (order: seq<string>)
    ensures Lists(order, keys)
  {
    OrderExists(keys);
    var order :| Lists(order, keys);
    order
  }

  function Pairs(order: seq<string>, m: map<string, string>): string
    requires forall k :: k in order ==> k in m
  {
    if order == [] then "" else "1" + (Encode(order[0]) + (Encode(m[order[0]]) + Pairs(order[1..], m)))
  }

  lemma {:induction false} PairsInjective(a: seq<string>, m: map<string, string>, b: seq<string>, n: map<string, string>)
    requires (forall k :: k in a ==> k in m) && forall k :: k in b ==> k in n
    requires Pairs(a, m) == Pairs(b, n)
    ensures a == b && forall k :: k in a ==> m[k] == n[k]
  {
    if a != [] && b != [] {
      var x, y := Encode(m[a[0]]) + Pairs(a[1..], m), Encode(n[b[0]]) + Pairs(b[1..], n);
      assert Encode(a[0]) + x == Pairs(a, m)[1..] && Encode(b[0]) + y == Pairs(b, n)[1..];
      EncodePrefix(a[0], b[0], x, y);
      EncodePrefix(m[a[0]], n[b[0]], Pairs(a[1..], m), Pairs(b[1..], n));
      PairsInjective(a[1..], m, b[1..], n);
      assert a == [a[0]] + a[1..] && b == [b[0]] + b[1..];
    }
  }

  ghost function Marshal(j: RawJson): string {
    match j
    case Malformed => "m"
    case Null => "n"
    case Object(fields) => "o" + Pairs(KeyOrder(fields.Keys), fields)
  }

  lemma {:induction false} PairsMarks(order: seq<string>, m: map<string, string>)
    requires forall k :: k in order ==> k in m
    ensures Marks(Pairs(order, m))
  {
    if order != [] {
      PairsMarks(order[1..], m);
    }
  }

  lemma MarshalInjective(i: RawJson, j: RawJson)
    requires Marshal(i) == Marshal(j)
    ensures i == j
  {
    if i.Object? && j.Object? {
      assert Marshal(i)[1..] == Pairs(KeyOrder(i.fields.Keys), i.fields);
      assert Marshal(j)[1..] == Pairs(KeyOrder(j.fields.Keys), j.fields);
      PairsInjective(KeyOrder(i.fields.Keys), i.fields, KeyOrder(j.fields.Keys), j.fields);
      assert i.fields.Keys == j.fields.Keys;
    } else {
      assert Marshal(i)[0] == Marshal(j)[0];
    }
  }

  lemma MarshalPlain(j: RawJson)
    ensures '\U{0}' !in Marshal(j)
  {
    if j.Object? {
      PairsMarks(KeyOrder(j.fields.Keys), j.fields);
    }
  }

  /** A sound codec exists, so nothing proved under `Sound` is empty. */
  lemma SoundCodec() returns (codec: Codec)
    ensures Sound(codec)
  {
    codec := Codec((j: RawJson) => Marshal(j), (s: string) => Encode(s));
    forall j ensures '\U{0}' !in codec.marshal(j) {
      MarshalPlain(j);
    }
    forall i, j | codec.marshal(i) == codec.marshal(j) ensures i == j {
      MarshalInjective(i, j);
    }
    forall s, t | codec.digest(s) == codec.digest(t) ensures s == t {
      assert Encode(s) + "" == Encode(s) && Encode(t) + "" == Encode(t);
      EncodePrefix(s, t, "", "");
    }
  }
}
