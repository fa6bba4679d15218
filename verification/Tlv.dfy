/** TLV8, HomeKit's type-length-value lists (internal/hksv/tlv.go). */

module TlvModel {
  import opened Wrappers
  import opened Bytes

  /** A list of typed values, the last one outermost. */
  datatype Items = Empty | Items(before: Items, t: byte, v: seq<byte>)

  function Part(v: seq<byte>): nat { if |v| < 255 then |v| else 255 }

  /** One value in chunks of at most 255 bytes. */
  function Chunks(t: byte, v: seq<byte>): (b: seq<byte>)
    decreases |v|
    ensures |b| >= 2
  {
    var n := Part(v);
    [t, n] + v[..n] + (if n == |v| then [] else Chunks(t, v[n..]))
  }

  function Encode(items: Items): seq<byte> {
    if items.Empty? then [] else Encode(items.before) + Chunks(items.t, items.v)
  }

  /** Whether a chunk of type t goes on with the last value. */
  predicate Joins(items: Items, t: byte) {
    items.Items? && items.t == t && t != 0 && |items.v| % 255 == 0 && |items.v| > 0
  }

  function Joined(items: Items, t: byte, v: seq<byte>): Items {
    if Joins(items, t) then items.(v := items.v + v) else Items(items, t, v)
  }

  /** The items of b after those already read; None when b is truncated. */
  function DecodeFrom(b: seq<byte>, items: Items): Option<Items>
    decreases |b|
  {
    if b == [] then Some(items)
    else if |b| < 2 || |b| - 2 < b[1] then None
    else DecodeFrom(b[2 + b[1]..], Joined(items, b[0], b[2..2 + b[1]]))
  }

  function Decode(b: seq<byte>): Option<Items> { DecodeFrom(b, Empty) }

  /** Type t once per value, with an empty item of type 0 between two. */
  function List(t: byte, values: seq<seq<byte>>, n: nat): Items
    requires n <= |values|
  {
    if n == 0 then Empty
    else if n == 1 then Items(Empty, t, values[0])
    else Items(Items(List(t, values, n - 1), 0, []), t, values[n - 1])
  }

  /** What can be told apart once encoded: a value of type 0 fits one chunk,
      and none that fills its chunks is followed by one of its type. */
  predicate Distinct(items: Items) {
    items.Items? ==>
      && Distinct(items.before)
      && (items.t == 0 ==> |items.v| <= 255)
      && !Joins(items.before, items.t)
  }

  /** What decoding makes of a value's chunks, after some items. */
  function Fed(items: Items, t: byte, v: seq<byte>): Items
    decreases |v|
  {
    var n := Part(v);
    var first := Joined(items, t, v[..n]);
    if n == |v| then first else Fed(first, t, v[n..])
  }

  lemma {:induction false} ChunksDecode(t: byte, v: seq<byte>, rest: seq<byte>, items: Items)
    ensures DecodeFrom(Chunks(t, v) + rest, items) == DecodeFrom(rest, Fed(items, t, v))
    decreases |v|
  {
    var n := Part(v);
    var more := if n == |v| then [] else Chunks(t, v[n..]);
    var b := Chunks(t, v) + rest;
    assert b == [t, n] + v[..n] + (more + rest);
    assert b[2 + n..] == more + rest && b[2..2 + n] == v[..n];
    if n == |v| {
      assert [] + rest == rest;
    } else {
      ChunksDecode(t, v[n..], rest, Joined(items, t, v[..n]));
    }
  }

  /** The chunks of a value not of type 0 come together again. */
  lemma {:induction false} FedTogether(items: Items, t: byte, v: seq<byte>)
    requires t != 0
    ensures Fed(items, t, v) == Joined(items, t, v)
    decreases |v|
  {
    var n := Part(v);
    if n == |v| {
      assert v[..n] == v;
    } else {
      FedTogether(Joined(items, t, v[..n]), t, v[n..]);
      assert v[..n] + v[n..] == v;
      if Joins(items, t) { assert items.v + v[..n] + v[n..] == items.v + v; }
    }
  }

  /** Those of a value of type 0 do not. */
  lemma {:induction false} FedApart(items: Items, v: seq<byte>)
    ensures var r := Fed(items, 0, v);
      r.Items? && r.t == 0 && (if |v| <= 255 then r == Items(items, 0, v) else |r.v| < |v|)
    decreases |v|
  {
    var n := Part(v);
    if n == |v| { assert v[..n] == v; } else { FedApart(Joined(items, 0, v[..n]), v[n..]); }
  }

  /** What decoding makes of encoded items. */
  function Read(items: Items): Items {
    if items.Empty? then Empty else Fed(Read(items.before), items.t, items.v)
  }

  lemma {:induction false} EncodedDecodes(items: Items, rest: seq<byte>)
    ensures DecodeFrom(Encode(items) + rest, Empty) == DecodeFrom(rest, Read(items))
  {
    if items.Empty? {
      assert [] + rest == rest;
    } else {
      var c := Chunks(items.t, items.v);
      assert Encode(items) + rest == Encode(items.before) + (c + rest);
      EncodedDecodes(items.before, c + rest);
      ChunksDecode(items.t, items.v, rest, Read(items.before));
    }
  }

  lemma {:induction false} ReadExactly(items: Items)
    ensures Read(items) == items <==> Distinct(items)
  {
    if items.Items? {
      var r := Read(items.before);
      ReadExactly(items.before);
      if items.t == 0 { FedApart(r, items.v); } else { FedTogether(r, items.t, items.v); }
    }
  }

  /** Encoding always decodes, and back to the same items exactly when they
      can be told apart. */
  lemma {:induction false} RoundTripExactly(items: Items)
    ensures Decode(Encode(items)).Some?
    ensures Decode(Encode(items)) == Some(items) <==> Distinct(items)
  {
    assert Encode(items) + [] == Encode(items);
    EncodedDecodes(items, []);
    ReadExactly(items);
  }

  /** The separators tell any values of a list apart. */
  lemma {:induction false} ListsRoundTrip(t: byte, values: seq<seq<byte>>, n: nat)
    requires t != 0 && n <= |values|
    ensures Decode(Encode(List(t, values, n))) == Some(List(t, values, n))
    ensures Values(List(t, values, n), t) == values[..n]
  {
    ListDistinct(t, values, n);
    RoundTripExactly(List(t, values, n));
  }

  /** The values of type t. */
  function Values(items: Items, t: byte): seq<seq<byte>> {
    if items.Empty? then []
    else Values(items.before, t) + (if items.t == t then [items.v] else [])
  }

  lemma {:induction false} ListDistinct(t: byte, values: seq<seq<byte>>, n: nat)
    requires t != 0 && n <= |values|
    ensures Distinct(List(t, values, n)) && Values(List(t, values, n), t) == values[..n]
  {
    if n == 1 {
      assert [] + [values[0]] == values[..1];
    } else if n > 1 {
      ListDistinct(t, values, n - 1);
      assert values[..n - 1] + [] == values[..n - 1];
      assert values[..n - 1] + [values[n - 1]] == values[..n];
    }
  }
}

module TlvCodec {
  import opened Wrappers
  import opened Bytes
  import opened TlvModel

  datatype Item = Item(t: byte, v: seq<byte>)

  /** The first n items of a sequence, as a list. */
  function Of(s: seq<Item>, n: nat): Items
    requires n <= |s|
  {
    if n == 0 then Empty else Items(Of(s, n - 1), s[n - 1].t, s[n - 1].v)
  }

  lemma {:induction false} SameFirst(s: seq<Item>, s': seq<Item>, n: nat)
    requires n <= |s| && n <= |s'| && forall i :: 0 <= i < n ==> s[i] == s'[i]
    ensures Of(s, n) == Of(s', n)
  {
    if n > 0 { SameFirst(s, s', n - 1); }
  }

  method EncodeItems(items: seq<Item>) returns (b: seq<byte>)
    ensures b == Encode(Of(items, |items|))
  {
    b := [];
    var i := 0;
    while i < |items|
      invariant 0 <= i <= |items| && b == Encode(Of(items, i))
    {
      var c := EncodeOne(items[i]);
      b := b + c;
      i := i + 1;
    }
  }

  method EncodeOne(item: Item) returns (b: seq<byte>)
    ensures b == Chunks(item.t, item.v)
  {
    var n := Part(item.v);
    b := [item.t, n] + item.v[..n];
    var v: seq<byte> := item.v[n..];
    if n == |item.v| { assert b + [] == b; }
    while |v| > 0
      invariant Chunks(item.t, item.v) == b + (if v == [] then [] else Chunks(item.t, v))
      decreases |v|
    {
      n := Part(v);
      var head := [item.t, n] + v[..n];
      ghost var more := if n == |v| then [] else Chunks(item.t, v[n..]);
      Associate(b, head, more);
      b := b + head;
      v := v[n..];
    }
    assert b + [] == b;
  }

  lemma {:induction false} Associate(a: seq<byte>, b: seq<byte>, c: seq<byte>)
    ensures a + (b + c) == a + b + c
  {
  }

  method DecodeItems(data: seq<byte>) returns (r: Option<seq<Item>>)
    ensures match Decode(data)
      case None => r.None?
      case Some(items) => r.Some? && Of(r.value, |r.value|) == items
  {
    var items: seq<Item>, b := [], data;
    while |b| > 0
      invariant DecodeFrom(b, Of(items, |items|)) == Decode(data)
      decreases |b|
    {
      if |b| < 2 || |b| - 2 < b[1] { return None; }
      var t, v, n := b[0], b[2..2 + b[1]], |items|;
      ghost var was := items;
      if n > 0 && items[n - 1].t == t && t != 0 && |items[n - 1].v| % 255 == 0 && |items[n - 1].v| > 0 {
        items := items[n - 1 := Item(t, items[n - 1].v + v)];
        SameFirst(was, items, n - 1);
      } else {
        items := items + [Item(t, v)];
        SameFirst(was, items, n);
      }
      assert Of(items, |items|) == Joined(Of(was, n), t, v);
      b := b[2 + b[1]..];
    }
    r := Some(items);
  }

  method MakeList(t: byte, values: seq<seq<byte>>) returns (items: seq<Item>)
    ensures Of(items, |items|) == List(t, values, |values|)
  {
    items := [];
    var i := 0;
    while i < |values|
      invariant 0 <= i <= |values|
      invariant Of(items, |items|) == List(t, values, i)
    {
      ghost var was := items;
      if i > 0 { items := items + [Item(0, [])]; }
      items := items + [Item(t, values[i])];
      SameFirst(was, items, |was|);
      i := i + 1;
    }
  }
}
