/** A recording's packets cut into data events (internal/hksv/datasend.go). */

module DataSend {
  import opened Wrappers
  import opened Bytes
  import opened OpackValues
  import opened OpackEncoder
  import opened HdsModel

  const MaxChunk := 0x4_0000

  /** One data event: its number, its bytes, the packet's size on the first,
      whether it ends the packet and, if so, whether that ends the stream. */
  datatype Chunk = Chunk(number: nat, data: seq<byte>, total: Option<nat>, isLast: bool, ends: Option<bool>)

  /** What the receiver puts together from the first n chunks. */
  function Together(cs: seq<Chunk>, n: nat): seq<byte>
    requires n <= |cs|
  {
    if n == 0 then [] else Together(cs, n - 1) + cs[n - 1].data
  }

  /** Chunk i of a packet. */
  ghost predicate IsChunk(c: Chunk, i: nat, isLast: bool, size: nat, last: bool) {
    && c.number == i + 1
    && 0 < |c.data| <= MaxChunk && (!isLast ==> |c.data| == MaxChunk)
    && c.total == (if i == 0 then Some(size) else None)
    && c.isLast == isLast
    && c.ends == if isLast then Some(last) else None
  }

  function Least(a: nat, b: nat): nat { if a < b then a else b }

  /** How many chunks a packet makes. */
  function Count(data: seq<byte>): nat { (|data| + MaxChunk - 1) / MaxChunk }

  function ChunkAt(data: seq<byte>, last: bool, i: nat): Chunk
    requires i < Count(data)
  {
    var isLast := i == Count(data) - 1;
    Chunk(i + 1, data[i * MaxChunk..Least((i + 1) * MaxChunk, |data|)], if i == 0 then Some(|data|) else None,
          isLast, if isLast then Some(last) else None)
  }

  /** A packet's chunks. */
  function Chunks(data: seq<byte>, last: bool): seq<Chunk> {
    seq(Count(data), i requires 0 <= i < Count(data) => ChunkAt(data, last, i))
  }

  /** The chunk from off on. */
  lemma {:induction false} ChunkIs(data: seq<byte>, last: bool, k: nat, off: nat, c: Chunk)
    requires off == Least(k * MaxChunk, |data|) && off < |data|
    requires var n := if |data| - off < MaxChunk then |data| - off else MaxChunk;
      var isLast := off + n == |data|;
      c == Chunk(k + 1, data[off..off + n], if k == 0 then Some(|data|) else None,
                 isLast, if isLast then Some(last) else None)
    ensures k < Count(data) && Chunks(data, last)[k] == c && off + |c.data| == Least((k + 1) * MaxChunk, |data|)
    ensures Chunks(data, last)[..k] + [c] == Chunks(data, last)[..k + 1]
    ensures off + |c.data| == |data| ==> Chunks(data, last)[..k + 1] == Chunks(data, last)
  {
  }

  lemma {:induction false} TogetherIs(data: seq<byte>, last: bool, n: nat)
    requires n <= Count(data)
    ensures Together(Chunks(data, last), n) == data[..Least(n * MaxChunk, |data|)]
  {
    if n > 0 {
      TogetherIs(data, last, n - 1);
      var a, b := (n - 1) * MaxChunk, Least(n * MaxChunk, |data|);
      assert data[..a] + data[a..b] == data[..b];
    }
  }

  /** Put together, a packet's chunks are its data; they are numbered from 1,
      only the first tells the size, only the last ends the packet, and each
      but the last is as large as it may be. */
  lemma {:induction false} ChunksMakeUp(data: seq<byte>, last: bool)
    ensures var cs := Chunks(data, last);
      && Together(cs, |cs|) == data && (cs == [] <==> data == [])
      && forall i :: 0 <= i < |cs| ==> IsChunk(cs[i], i, i == |cs| - 1, |data|, last)
  {
    TogetherIs(data, last, Count(data));
    assert data[..|data|] == data;
  }

  // How long an event is, and whether it fits a frame.

  /** The protocol's words. */
  datatype Words = Words(protocol: seq<byte>, event: seq<byte>, dataSend: seq<byte>, data: seq<byte>,
                         streamId: seq<byte>, packets: seq<byte>, endOfStream: seq<byte>, metadata: seq<byte>,
                         dataType: seq<byte>, seqNumber: seq<byte>, chunkNumber: seq<byte>, isLast: seq<byte>,
                         totalSize: seq<byte>)
  {
    predicate Short() {
      && |protocol| <= 32 && |event| <= 32 && |dataSend| <= 32 && |data| <= 32 && |streamId| <= 32
      && |packets| <= 32 && |endOfStream| <= 32 && |metadata| <= 32 && |dataType| <= 32
      && |seqNumber| <= 32 && |chunkNumber| <= 32 && |isLast| <= 32 && |totalSize| <= 32
    }

    /** The keys of each dictionary are told apart. */
    predicate Apart() {
      && protocol != event && data != metadata
      && Distinct([streamId, packets, endOfStream])
      && Distinct([dataType, seqNumber, chunkNumber, isLast, totalSize])
    }

    lemma {:induction false} MetadataApart()
      requires Apart()
      ensures dataType != seqNumber && dataType != chunkNumber && dataType != isLast && dataType != totalSize
      ensures seqNumber != chunkNumber && seqNumber != isLast && seqNumber != totalSize
      ensures chunkNumber != isLast && chunkNumber != totalSize && isLast != totalSize
    {
      var keys := [dataType, seqNumber, chunkNumber, isLast, totalSize];
      assert keys[0] != keys[1] && keys[0] != keys[2] && keys[0] != keys[3] && keys[0] != keys[4];
      assert keys[1] != keys[2] && keys[1] != keys[3] && keys[1] != keys[4];
      assert keys[2] != keys[3] && keys[2] != keys[4] && keys[3] != keys[4];
    }
  }

  predicate Distinct(keys: seq<seq<byte>>) {
    forall i, j :: 0 <= i < j < |keys| ==> keys[i] != keys[j]
  }

  function Ascii(s: string): (b: seq<byte>)
    ensures |b| == |s|
  {
    seq(|s|, i requires 0 <= i < |s| => s[i] as int % 256)
  }

  /** The words HomeKit uses. */
  function English(): (w: Words)
    ensures w.Short() && w.Apart()
  {
    Words(Ascii("protocol"), Ascii("event"), Ascii("dataSend"), Ascii("data"), Ascii("streamId"), Ascii("packets"),
          Ascii("endOfStream"), Ascii("metadata"), Ascii("dataType"), Ascii("dataSequenceNumber"),
          Ascii("dataChunkSequenceNumber"), Ascii("isLastDataChunk"), Ascii("dataTotalSize"))
  }

  /** A key and a value as a dictionary writes them. */
  ghost function Cost(k: seq<byte>, v: Value): nat
    requires Encodable(v)
  {
    |EncodeBytes(k, 0x40, 0x61)| + |Encode(v)|
  }

  // Sums over a set of keys, the order of which does not matter.

  ghost function Sum(costs: map<seq<byte>, nat>, s: set<seq<byte>>): nat
    requires s <= costs.Keys
    decreases |s|
  {
    if s == {} then 0
    else
      var k := LeastKeyOf(s);
      costs[k] + Sum(costs, s - {k})
  }

  lemma {:induction false} AnyFirst(costs: map<seq<byte>, nat>, s: set<seq<byte>>, k: seq<byte>)
    requires s <= costs.Keys && k in s
    ensures Sum(costs, s) == costs[k] + Sum(costs, s - {k})
    decreases |s|
  {
    var k0 := LeastKeyOf(s);
    if k != k0 {
      AnyFirst(costs, s - {k0}, k);
      AnyFirst(costs, s - {k}, k0);
      assert s - {k0} - {k} == s - {k} - {k0};
    }
  }

  lemma {:induction false} SameSum(c: map<seq<byte>, nat>, d: map<seq<byte>, nat>, s: set<seq<byte>>)
    requires s <= c.Keys && s <= d.Keys && forall k :: k in s ==> c[k] == d[k]
    ensures Sum(c, s) == Sum(d, s)
    decreases |s|
  {
    if s != {} { SameSum(c, d, s - {LeastKeyOf(s)}); }
  }

  // Dictionaries.

  ghost function Costs(m: Fields): map<seq<byte>, nat>
    requires Encodable(Dict(m))
  {
    map k | k in m :: Cost(k, m[k])
  }

  lemma {:induction false} FirstField(v: Value, k: seq<byte>, keys: seq<seq<byte>>)
    requires Encodable(v) && v.Dict? && k in v.entries && forall x :: x in keys ==> x in v.entries
    ensures forall x :: x in [k] + keys ==> x in v.entries
    ensures |EncodeFields(v, [k] + keys)| == Cost(k, v.entries[k]) + |EncodeFields(v, keys)|
  {
    assert ([k] + keys)[1..] == keys && ([k] + keys)[0] == k;
  }

  lemma {:induction false} FieldsLen(m: Fields, s: set<seq<byte>>)
    requires Encodable(Dict(m)) && s <= m.Keys
    ensures |EncodeFields(Dict(m), SortedKeys(s))| == Sum(Costs(m), s)
    decreases |s|
  {
    if s != {} {
      var k := LeastKeyOf(s);
      FieldsLen(m, s - {k});
      FirstField(Dict(m), k, SortedKeys(s - {k}));
    }
  }

  lemma {:induction false} SortedCount(s: set<seq<byte>>)
    ensures |SortedKeys(s)| == |s|
    decreases |s|
  {
    if s != {} { SortedCount(s - {LeastKeyOf(s)}); }
  }

  /** How long a dictionary is, its keys in whatever order. */
  ghost function Size(m: Fields): nat
    requires Encodable(Dict(m))
  {
    1 + Sum(Costs(m), Costs(m).Keys)
  }

  lemma {:induction false} DictLen(m: Fields)
    requires Encodable(Dict(m)) && |m| <= 14
    ensures |Encode(Dict(m))| == Size(m)
  {
    assert Costs(m).Keys == m.Keys;
    FieldsLen(m, m.Keys);
    SortedCount(m.Keys);
    assert |m.Keys| == |m|;
    var sorted := SortedKeys(m.Keys);
    assert Encode(Dict(m)) == [0xe0 + |sorted|] + EncodeFields(Dict(m), sorted) + [];
  }

  lemma {:induction false} SumGrows(c: map<seq<byte>, nat>, d: map<seq<byte>, nat>, k: seq<byte>)
    requires d.Keys == c.Keys + {k} && k !in c && forall x :: x in c ==> d[x] == c[x]
    ensures Sum(d, d.Keys) == Sum(c, c.Keys) + d[k]
  {
    AnyFirst(d, d.Keys, k);
    assert d.Keys - {k} == c.Keys;
    SameSum(d, c, c.Keys);
  }

  lemma {:induction false} CostsGrow(m: Fields, k: seq<byte>, v: Value)
    requires Encodable(Dict(m)) && Encodable(v) && |k| < U32 && k !in m
    ensures Encodable(Dict(m[k := v]))
    ensures var c, d := Costs(m), Costs(m[k := v]);
      && c.Keys == m.Keys && d.Keys == c.Keys + {k} && d[k] == Cost(k, v)
      && forall x :: x in c ==> d[x] == c[x]
  {
  }

  lemma {:induction false} OneMore(m: Fields, k: seq<byte>, v: Value)
    requires k !in m
    ensures |m[k := v]| == |m| + 1
  {
    assert m[k := v].Keys == m.Keys + {k};
    assert |m[k := v]| == |m[k := v].Keys| && |m| == |m.Keys|;
  }

  /** A dictionary grows by the key and the value it takes in. */
  lemma {:induction false} AddField(m: Fields, k: seq<byte>, v: Value)
    requires Encodable(Dict(m)) && Encodable(v) && |k| < U32 && k !in m
    ensures Encodable(Dict(m[k := v])) && |m[k := v]| == |m| + 1
    ensures Size(m[k := v]) == Size(m) + BytesLen(k) + |Encode(v)|
  {
    CostsGrow(m, k, v);
    OneMore(m, k, v);
    SumGrows(Costs(m), Costs(m[k := v]), k);
    KeyLen(k);
  }

  lemma {:induction false} NoField()
    ensures Encodable(Dict(map[])) && Size(map[]) == 1
  {
  }

  function Metadata(w: Words, kind: seq<byte>, seqno: int, c: Chunk): Fields {
    var m: Fields := map[][w.dataType := Str(kind)][w.seqNumber := Int(seqno)]
                     [w.chunkNumber := Int(c.number)][w.isLast := Bool(c.isLast)];
    if c.total.Some? then m[w.totalSize := Int(c.total.value)] else m
  }

  function Packet(w: Words, kind: seq<byte>, seqno: int, c: Chunk): Fields {
    map[][w.data := Data(c.data)][w.metadata := Dict(Metadata(w, kind, seqno, c))]
  }

  function Body(w: Words, id: Value, packet: Value, ends: Option<bool>): Fields {
    var m: Fields := map[][w.packets := Arr([packet])][w.streamId := id];
    if ends.Some? then m[w.endOfStream := Bool(ends.value)] else m
  }

  function Header(w: Words): Fields {
    map[][w.protocol := Str(w.dataSend)][w.event := Str(w.data)]
  }

  /** The event that carries a chunk; the stream's id is the hub's own value. */
  function Event(w: Words, id: Value, kind: seq<byte>, seqno: int, c: Chunk): Message {
    Message(Header(w), Body(w, id, Dict(Packet(w, kind, seqno, c)), c.ends))
  }

  /** Numbers within 64 bits, lengths within 32. */
  predicate Fits(kind: seq<byte>, seqno: int, c: Chunk) {
    && |kind| < U32 && |c.data| < U32 && 0 <= seqno < 0x8000_0000_0000_0000
    && c.number < 0x8000_0000_0000_0000 && (c.total.Some? ==> c.total.value < 0x8000_0000_0000_0000)
  }

  function IntLen(n: int): nat
    requires 0 <= n < 0x8000_0000_0000_0000
  {
    if n <= 39 then 1 else if n <= 0x7f then 2 else if n <= 0x7fff then 3 else if n <= 0x7fff_ffff then 5 else 9
  }

  /** Strings and data alike. */
  function BytesLen(s: seq<byte>): nat {
    |s| + if |s| <= 32 then 1 else if |s| <= 0xff then 2 else if |s| <= 0xffff then 3 else 5
  }

  function MetadataLen(w: Words, kind: seq<byte>, seqno: int, c: Chunk): nat
    requires Fits(kind, seqno, c)
  {
    1 + BytesLen(w.dataType) + BytesLen(kind) + BytesLen(w.seqNumber) + IntLen(seqno)
    + BytesLen(w.chunkNumber) + IntLen(c.number) + BytesLen(w.isLast) + 1
    + (if c.total.Some? then BytesLen(w.totalSize) + IntLen(c.total.value) else 0)
  }

  /** What an event is long besides its stream's id. */
  function Rest(w: Words, kind: seq<byte>, seqno: int, c: Chunk): nat
    requires Fits(kind, seqno, c)
  {
    1 + HeaderLen(w) + 1 + BytesLen(w.streamId) + BytesLen(w.packets) + 1 + PacketLen(w, kind, seqno, c)
    + (if c.ends.Some? then BytesLen(w.endOfStream) + 1 else 0)
  }

  function HeaderLen(w: Words): nat {
    1 + BytesLen(w.protocol) + BytesLen(w.dataSend) + BytesLen(w.event) + BytesLen(w.data)
  }

  function PacketLen(w: Words, kind: seq<byte>, seqno: int, c: Chunk): nat
    requires Fits(kind, seqno, c)
  {
    1 + BytesLen(w.data) + BytesLen(c.data) + BytesLen(w.metadata) + MetadataLen(w, kind, seqno, c)
  }

  lemma {:induction false} KeyLen(k: seq<byte>)
    requires |k| < U32
    ensures |EncodeBytes(k, 0x40, 0x61)| == BytesLen(k)
  {
  }

  lemma {:induction false} ScalarLen(v: Value)
    requires Encodable(v)
    ensures v.Bool? ==> |Encode(v)| == 1
    ensures v.Int? && v.n >= 0 ==> |Encode(v)| == IntLen(v.n)
    ensures v.Str? ==> |Encode(v)| == BytesLen(v.s)
    ensures v.Data? ==> |Encode(v)| == BytesLen(v.d)
  {
  }

  lemma {:induction false} OneItemLen(v: Value)
    requires Encodable(v)
    ensures Encodable(Arr([v])) && |Encode(Arr([v]))| == 1 + |Encode(v)|
  {
    var a := Arr([v]);
    assert EncodeItems(a, 1) == [];
    assert EncodeItems(a, 0) == Encode(v) + EncodeItems(a, 1);
    assert Encode(a) == [0xd1] + EncodeItems(a, 0) + [];
  }

  lemma {:induction false} HeaderIs(w: Words)
    requires w.Short() && w.Apart()
    ensures Encodable(Dict(Header(w))) && |Header(w)| == 2 && Size(Header(w)) == HeaderLen(w) <= 255
  {
    NoField();
    AddField(map[], w.protocol, Str(w.dataSend));
    AddField(map[][w.protocol := Str(w.dataSend)], w.event, Str(w.data));
    ScalarLen(Str(w.dataSend));
    ScalarLen(Str(w.data));
  }

  lemma {:induction false} MetadataHead(w: Words, kind: seq<byte>, seqno: int) returns (m: Fields)
    requires w.Short() && w.Apart() && |kind| < U32 && 0 <= seqno < 0x8000_0000_0000_0000
    ensures m == map[][w.dataType := Str(kind)][w.seqNumber := Int(seqno)]
    ensures Encodable(Dict(m)) && |m| == 2 && w.chunkNumber !in m && w.isLast !in m && w.totalSize !in m
    ensures Size(m) == 1 + BytesLen(w.dataType) + BytesLen(kind) + BytesLen(w.seqNumber) + IntLen(seqno)
  {
    w.MetadataApart();
    NoField();
    ScalarLen(Str(kind));
    ScalarLen(Int(seqno));
    AddField(map[], w.dataType, Str(kind));
    m := map[][w.dataType := Str(kind)];
    AddField(m, w.seqNumber, Int(seqno));
    m := m[w.seqNumber := Int(seqno)];
  }

  lemma {:induction false} MetadataTail(m: Fields, w: Words, n: int, last: bool) returns (r: Fields)
    requires w.Short() && w.Apart() && Encodable(Dict(m)) && |m| == 2 && 0 <= n < 0x8000_0000_0000_0000
    requires w.chunkNumber !in m && w.isLast !in m && w.totalSize !in m
    ensures r == m[w.chunkNumber := Int(n)][w.isLast := Bool(last)]
    ensures Encodable(Dict(r)) && |r| == 4 && w.totalSize !in r
    ensures Size(r) == Size(m) + BytesLen(w.chunkNumber) + IntLen(n) + BytesLen(w.isLast) + 1
  {
    w.MetadataApart();
    ScalarLen(Int(n));
    ScalarLen(Bool(last));
    AddField(m, w.chunkNumber, Int(n));
    r := m[w.chunkNumber := Int(n)];
    AddField(r, w.isLast, Bool(last));
    r := r[w.isLast := Bool(last)];
  }

  lemma {:induction false} MetadataEnd(m: Fields, k: seq<byte>, total: Option<nat>) returns (r: Fields)
    requires Encodable(Dict(m)) && |m| == 4 && k !in m && |k| < U32
    requires total.Some? ==> total.value < 0x8000_0000_0000_0000
    ensures r == if total.Some? then m[k := Int(total.value)] else m
    ensures Encodable(Dict(r)) && |r| <= 5
    ensures Size(r) == Size(m) + if total.Some? then BytesLen(k) + IntLen(total.value) else 0
  {
    r := m;
    if total.Some? {
      ScalarLen(Int(total.value));
      AddField(m, k, Int(total.value));
      r := m[k := Int(total.value)];
    }
  }

  lemma {:induction false} MetadataParts(w: Words, kind: seq<byte>, seqno: int, c: Chunk) returns (m: Fields)
    requires w.Short() && w.Apart() && Fits(kind, seqno, c)
    ensures m == Metadata(w, kind, seqno, c)
    ensures Encodable(Dict(m)) && |m| <= 5 && Size(m) == MetadataLen(w, kind, seqno, c)
  {
    var head := MetadataHead(w, kind, seqno);
    var tail := MetadataTail(head, w, c.number, c.isLast);
    m := MetadataEnd(tail, w.totalSize, c.total);
  }

  lemma {:induction false} MetadataIs(w: Words, kind: seq<byte>, seqno: int, c: Chunk)
    requires w.Short() && w.Apart() && Fits(kind, seqno, c)
    ensures Encodable(Dict(Metadata(w, kind, seqno, c))) && |Metadata(w, kind, seqno, c)| <= 5
    ensures Size(Metadata(w, kind, seqno, c)) == MetadataLen(w, kind, seqno, c)
  {
    var m := MetadataParts(w, kind, seqno, c);
  }

  lemma {:induction false} PacketIs(w: Words, kind: seq<byte>, seqno: int, c: Chunk)
    requires w.Short() && w.Apart() && Fits(kind, seqno, c)
    ensures Encodable(Dict(Packet(w, kind, seqno, c))) && |Packet(w, kind, seqno, c)| == 2
    ensures Size(Packet(w, kind, seqno, c)) == PacketLen(w, kind, seqno, c)
  {
    MetadataIs(w, kind, seqno, c);
    DictLen(Metadata(w, kind, seqno, c));
    NoField();
    ScalarLen(Data(c.data));
    AddField(map[], w.data, Data(c.data));
    AddField(map[][w.data := Data(c.data)], w.metadata, Dict(Metadata(w, kind, seqno, c)));
  }

  lemma {:induction false} BodyIs(w: Words, id: Value, packet: Value, ends: Option<bool>)
    requires w.Short() && w.Apart() && Encodable(id) && Encodable(packet)
    ensures Encodable(Dict(Body(w, id, packet, ends))) && |Body(w, id, packet, ends)| <= 3
    ensures Size(Body(w, id, packet, ends)) ==
      1 + BytesLen(w.packets) + 1 + |Encode(packet)| + BytesLen(w.streamId) + |Encode(id)|
      + (if ends.Some? then BytesLen(w.endOfStream) + 1 else 0)
  {
    var keys := [w.streamId, w.packets, w.endOfStream];
    assert keys[0] != keys[1] && keys[0] != keys[2] && keys[1] != keys[2];
    OneItemLen(packet);
    NoField();
    AddField(map[], w.packets, Arr([packet]));
    var m1: Fields := map[][w.packets := Arr([packet])];
    AddField(m1, w.streamId, id);
    if ends.Some? {
      ScalarLen(Bool(ends.value));
      AddField(m1[w.streamId := id], w.endOfStream, Bool(ends.value));
    }
  }

  /** The length of an event, and so whether it is sent: exactly when its
      stream's id leaves it within the frame limit. */
  lemma {:induction false} EventFitsExactly(w: Words, id: Value, kind: seq<byte>, seqno: int, c: Chunk)
    requires w.Short() && w.Apart() && Fits(kind, seqno, c) && Encodable(id)
    ensures Event(w, id, kind, seqno, c).Sends() <==> |Encode(id)| + Rest(w, kind, seqno, c) <= MaxFrame
  {
    PacketIs(w, kind, seqno, c);
    DictLen(Packet(w, kind, seqno, c));
    HeaderIs(w);
    DictLen(Header(w));
    BodyIs(w, id, Dict(Packet(w, kind, seqno, c)), c.ends);
    DictLen(Body(w, id, Dict(Packet(w, kind, seqno, c)), c.ends));
    SizeDecides(Event(w, id, kind, seqno, c), |Encode(id)| + Rest(w, kind, seqno, c));
  }

  lemma {:induction false} SizeDecides(m: Message, n: nat)
    requires m.Encodes() && |Encode(Dict(m.header))| <= 255
    requires n == 1 + |Encode(Dict(m.header))| + |Encode(Dict(m.body))|
    ensures m.Sends() <==> n <= MaxFrame
  {
  }

  /** With HomeKit's words, a stream id that is a number always fits. */
  lemma {:induction false} NumberedEventsFit(n: int, kind: seq<byte>, seqno: int, c: Chunk)
    requires Fits(kind, seqno, c) && |kind| <= 32 && |c.data| <= MaxChunk
    requires -0x8000_0000_0000_0000 <= n < 0x8000_0000_0000_0000
    ensures Event(English(), Int(n), kind, seqno, c).Sends()
  {
    IdLen(n);
    RestIsSmall(English(), kind, seqno, c);
    EventFitsExactly(English(), Int(n), kind, seqno, c);
  }

  lemma {:induction false} IdLen(n: int)
    requires -0x8000_0000_0000_0000 <= n < 0x8000_0000_0000_0000
    ensures Encodable(Int(n)) && |Encode(Int(n))| <= 9
  {
  }

  lemma {:induction false} RestIsSmall(w: Words, kind: seq<byte>, seqno: int, c: Chunk)
    requires w.Short() && Fits(kind, seqno, c) && |kind| <= 32
    ensures Rest(w, kind, seqno, c) <= |c.data| + 1000
  {
  }

  /** But an id of 800 000 bytes, which a hub's own message can carry, makes
      every full chunk too long. */
  lemma {:induction false} LongIdIsRefused(id: Value, kind: seq<byte>, seqno: int, c: Chunk)
    requires Fits(kind, seqno, c) && |c.data| == MaxChunk && id.Data? && |id.d| == 800_000
    ensures Encodable(id) && !Event(English(), id, kind, seqno, c).Sends()
  {
    ScalarLen(id);
    EventFitsExactly(English(), id, kind, seqno, c);
  }

  // A whole packet.

  /** A packet whose numbers fit 64 bits and its kind's length 32. */
  predicate Sized(kind: seq<byte>, seqno: int, data: seq<byte>) {
    |kind| < U32 && 0 <= seqno < 0x8000_0000_0000_0000 && |data| < 0x8000_0000_0000_0000
  }

  lemma {:induction false} ChunksFit(kind: seq<byte>, seqno: int, data: seq<byte>, last: bool)
    requires Sized(kind, seqno, data)
    ensures forall c :: c in Chunks(data, last) ==> Fits(kind, seqno, c)
  {
    forall c | c in Chunks(data, last) ensures Fits(kind, seqno, c) {
      var i :| 0 <= i < Count(data) && c == ChunkAt(data, last, i);
      assert i < |data|;
    }
  }

  /** Whether a chunk's event is sent, its stream's id being idLen bytes long. */
  predicate Room(w: Words, idLen: nat, kind: seq<byte>, seqno: int, c: Chunk) {
    Fits(kind, seqno, c) && idLen + Rest(w, kind, seqno, c) <= MaxFrame
  }

  /** Sends a packet, chunk by chunk, up to the first whose event is too long
      for a frame: an error, as is an empty packet. */
  method SendPacket(w: Words, idLen: nat, kind: seq<byte>, seqno: int, data: seq<byte>, last: bool)
    returns (sent: seq<Chunk>, ok: bool)
    requires Sized(kind, seqno, data)
    ensures sent <= Chunks(data, last) && forall c :: c in sent ==> Room(w, idLen, kind, seqno, c)
    ensures ok <==> data != [] && sent == Chunks(data, last)
    ensures var n := |sent|;
      !ok && data != [] ==> n < Count(data) && !Room(w, idLen, kind, seqno, Chunks(data, last)[n])
  {
    sent, ok := [], false;
    if |data| == 0 { return; }
    ghost var cs := Chunks(data, last);
    var off, number := 0, 1;
    while off < |data|
      invariant number - 1 == |sent| <= Count(data) && off == Least(|sent| * MaxChunk, |data|)
      invariant sent == cs[..|sent|] && forall c :: c in sent ==> Room(w, idLen, kind, seqno, c)
      decreases |data| - off
    {
      var n := if |data| - off < MaxChunk then |data| - off else MaxChunk;
      var isLast := off + n == |data|;
      var c := Chunk(number, data[off..off + n], if number == 1 then Some(|data|) else None,
                     isLast, if isLast then Some(last) else None);
      ChunkIs(data, last, |sent|, off, c);
      assert Fits(kind, seqno, c);
      if idLen + Rest(w, kind, seqno, c) > MaxFrame { return; }
      sent := sent + [c];
      off, number := off + n, number + 1;
    }
    ok := true;
  }

  /** The events of some chunks. */
  function Events(w: Words, id: Value, kind: seq<byte>, seqno: int, cs: seq<Chunk>): Mail {
    if cs == [] then NoMail
    else Mail(Event(w, id, kind, seqno, cs[0]), Events(w, id, kind, seqno, cs[1..]))
  }

  /** The data of an event's packet, as a hub looks it up. */
  function DataOf(w: Words, m: Message): Option<seq<byte>> {
    if w.packets in m.body && m.body[w.packets].Arr? && |m.body[w.packets].items| == 1 then
      var p := m.body[w.packets].items[0];
      if p.Dict? && w.data in p.entries && p.entries[w.data].Data? then Some(p.entries[w.data].d) else None
    else None
  }

  /** The data of all the events. */
  function Received(w: Words, mail: Mail): Option<seq<byte>> {
    if mail.NoMail? then Some([])
    else match (DataOf(w, mail.m), Received(w, mail.later))
      case (Some(a), Some(b)) => Some(a + b)
      case _ => None
  }

  lemma {:induction false} EventHolds(w: Words, id: Value, kind: seq<byte>, seqno: int, c: Chunk)
    requires w.Apart()
    ensures DataOf(w, Event(w, id, kind, seqno, c)) == Some(c.data)
  {
    var keys := [w.streamId, w.packets, w.endOfStream];
    assert keys[0] != keys[1] && keys[1] != keys[2];
  }

  lemma {:induction false} TogetherFront(cs: seq<Chunk>, n: nat)
    requires 0 < n <= |cs|
    ensures Together(cs, n) == cs[0].data + Together(cs[1..], n - 1)
  {
    if n > 1 {
      TogetherFront(cs, n - 1);
      assert cs[1..][n - 2] == cs[n - 1];
    } else {
      assert cs[0].data + [] == cs[0].data == [] + cs[0].data;
    }
  }

  /** Of the events tried all but one too long are sent. */
  lemma {:induction false} TooLongIsLeftOut(w: Words, id: Value, kind: seq<byte>, seqno: int, cs: seq<Chunk>,
                                            more: seq<Chunk>)
    requires forall c :: c in cs ==> Event(w, id, kind, seqno, c).Sends()
    requires |more| <= 1 && forall c :: c in more ==> !Event(w, id, kind, seqno, c).Sends()
    ensures Events(w, id, kind, seqno, cs + more).Sent() == Events(w, id, kind, seqno, cs)
    decreases |cs|
  {
    if cs == [] {
      assert cs + more == more;
      if more != [] { assert more[1..] == []; }
    } else {
      assert (cs + more)[1..] == cs[1..] + more;
      TooLongIsLeftOut(w, id, kind, seqno, cs[1..], more);
    }
  }

  lemma {:induction false} EventsHold(w: Words, id: Value, kind: seq<byte>, seqno: int, cs: seq<Chunk>)
    requires w.Apart()
    ensures Received(w, Events(w, id, kind, seqno, cs)) == Some(Together(cs, |cs|))
  {
    if cs != [] {
      EventHolds(w, id, kind, seqno, cs[0]);
      EventsHold(w, id, kind, seqno, cs[1..]);
      TogetherFront(cs, |cs|);
    }
  }

  lemma {:induction false} TogetherFirst(cs: seq<Chunk>, n: nat, k: nat)
    requires k <= n <= |cs|
    ensures Together(cs[..n], k) == Together(cs, k)
  {
    if k > 0 { TogetherFirst(cs, n, k - 1); }
  }

  /** Which events go out: those before the first with no room. */
  lemma {:induction false} RoomDecides(w: Words, id: Value, kind: seq<byte>, seqno: int, data: seq<byte>, last: bool)
    requires w.Short() && w.Apart() && Encodable(id) && Sized(kind, seqno, data)
    ensures forall c :: c in Chunks(data, last) ==>
      (Event(w, id, kind, seqno, c).Sends() <==> Room(w, |Encode(id)|, kind, seqno, c))
  {
    ChunksFit(kind, seqno, data, last);
    forall c | c in Chunks(data, last)
      ensures Event(w, id, kind, seqno, c).Sends() <==> Room(w, |Encode(id)|, kind, seqno, c)
    {
      EventFitsExactly(w, id, kind, seqno, c);
    }
  }

  /** What is read of the events tried. */
  lemma {:induction false} TriedAreRead(c: Cipher, nonce: nat, w: Words, id: Value, kind: seq<byte>, seqno: int,
                                        cs: seq<Chunk>, more: seq<Chunk>)
    requires HdsModel.Opens(c) && |more| <= 1
    requires forall x :: x in cs ==> Event(w, id, kind, seqno, x).Sends()
    requires forall x :: x in more ==> !Event(w, id, kind, seqno, x).Sends()
    ensures var tried := Events(w, id, kind, seqno, cs + more).Plains();
      && tried.Fits()
      && Decoded(UnsealAll(tried.Wire(c, nonce), c, nonce)) == Events(w, id, kind, seqno, cs)
  {
    TooLongIsLeftOut(w, id, kind, seqno, cs, more);
    MessagesReadBack(c, nonce, Events(w, id, kind, seqno, cs + more));
  }

  /** The n chunks that have room, and the next one if there is one. */
  lemma {:induction false} OneMoreTried(w: Words, idLen: nat, kind: seq<byte>, seqno: int, cs: seq<Chunk>, n: nat)
    requires n <= |cs| && forall i :: 0 <= i < n ==> Room(w, idLen, kind, seqno, cs[i])
    requires n < |cs| ==> !Room(w, idLen, kind, seqno, cs[n])
    ensures var more := cs[n..Least(n + 1, |cs|)];
      && cs[..n] + more == cs[..Least(n + 1, |cs|)]
      && (forall x :: x in cs[..n] ==> x in cs && Room(w, idLen, kind, seqno, x))
      && (forall x :: x in more ==> x in cs && !Room(w, idLen, kind, seqno, x))
  {
  }

  /** The first n chunks hold all the data only when they are all. */
  lemma {:induction false} AllOrPart(w: Words, id: Value, kind: seq<byte>, seqno: int, data: seq<byte>, last: bool,
                                     n: nat)
    requires w.Apart() && n <= Count(data)
    ensures Received(w, Events(w, id, kind, seqno, Chunks(data, last)[..n]))
         == Some(data[..Least(n * MaxChunk, |data|)])
    ensures data[..Least(n * MaxChunk, |data|)] == data <==> n == Count(data)
  {
    var cs := Chunks(data, last);
    EventsHold(w, id, kind, seqno, cs[..n]);
    TogetherFirst(cs, n, n);
    TogetherIs(data, last, n);
    assert data[..|data|] == data;
  }

  /** A packet from end to end: of the n chunks that have room before one that
      has not, and of no other, the hub reads the events, in order, and puts
      together their part of the data: the whole of it exactly when every chunk
      has room. */
  lemma {:induction false} PacketArrives(c: Cipher, nonce: nat, w: Words, id: Value, kind: seq<byte>, seqno: int,
                                         data: seq<byte>, last: bool, n: nat)
    requires HdsModel.Opens(c) && w.Short() && w.Apart() && Encodable(id) && Sized(kind, seqno, data)
    requires n <= Count(data) && forall i :: 0 <= i < n ==> Room(w, |Encode(id)|, kind, seqno, Chunks(data, last)[i])
    requires n < Count(data) ==> !Room(w, |Encode(id)|, kind, seqno, Chunks(data, last)[n])
    ensures var cs := Chunks(data, last);
      var tried := Events(w, id, kind, seqno, cs[..Least(n + 1, |cs|)]);
      && tried.Plains().Fits()
      && var read := Decoded(UnsealAll(tried.Plains().Wire(c, nonce), c, nonce));
      && read == Events(w, id, kind, seqno, cs[..n])
      && Received(w, read) == Some(data[..Least(n * MaxChunk, |data|)])
      && (Received(w, read) == Some(data) <==> n == |cs|)
  {
    RoomDecides(w, id, kind, seqno, data, last);
    var cs := Chunks(data, last);
    OneMoreTried(w, |Encode(id)|, kind, seqno, cs, n);
    TriedAreRead(c, nonce, w, id, kind, seqno, cs[..n], cs[n..Least(n + 1, |cs|)]);
    AllOrPart(w, id, kind, seqno, data, last, n);
  }
}
