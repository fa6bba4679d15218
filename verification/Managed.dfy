/** DomusRF managed frames on the wire (internal/charmux/managed.go). */
module Managed {
  import opened Wrappers
  import opened Bytes

  const HALF := 0x8000_0000

  datatype Frame = Frame(gwDst: nat, gwSrc: nat, rfByte: byte, counter: nat, src: nat, flags: nat, route: nat,
                         ackDst: nat, ackCnt: nat, wflags: byte, payload: seq<byte>)
  {
    predicate Valid() {
      && gwDst < U32 && gwSrc < U32 && counter < U32 && src < U32 && flags < 0x1_0000 && route < U32
      && ackDst < U32 && ackCnt < U32
    }

    predicate Z() { flags % 2 == 1 }
    predicate W() { flags / 2 % 2 == 1 }
    predicate A() { flags / 4 % 2 == 1 }

    /** None of Z, W and A: an MCU delivery report, its reason in bits 6 to 9. */
    predicate Report() { flags % 8 == 0 }
    function Reason(): nat { flags / 64 % 16 }

    /** Bits 11 to 13: how many route hops follow the flags. */
    function Hops(): nat { flags / 2048 % 8 }
  }

  predicate NoAcks(f: Frame) { f.ackDst == 0 && f.ackCnt == 0 }
  predicate NoBody(f: Frame) { f.wflags == 0 && f.payload == [] }

  /** Which frames the flags and the fields describe alike: a report carries
      nothing; a route is counted as one hop, and acknowledges nothing, or by
      itself twice when nothing follows; uncounted hops leave only zeros; else
      what the flags leave out is zero. */
  predicate Carried(f: Frame) {
    if f.Report() then f.route == 0 && NoAcks(f) && NoBody(f)
    else if f.route != 0 then
      && f.Hops() == 1
      && (if f.A() then !f.W() && f.ackDst == f.ackCnt == f.route else NoAcks(f))
      && (!f.W() ==> NoBody(f))
    else if f.Hops() != 0 then NoAcks(f) && NoBody(f)
    else (!f.A() ==> NoAcks(f)) && (!f.W() ==> NoBody(f))
  }

  function Varint(v: nat): (s: seq<byte>)
    ensures |s| >= 1
  {
    if v >= 0x80 then [v % 0x80 + 0x80] + Varint(v / 0x80) else [v]
  }

  /** The number at the head of s, low groups of seven bits first, and what is
      left; k is the place of its first byte. At most five bytes are read, and
      of the fifth only the four bits that fit 32. */
  function TakeAt(s: seq<byte>, k: nat): (r: (nat, seq<byte>))
    requires k <= 4
    decreases |s|
  {
    if s == [] then (0, [])
    else if k == 4 then (s[0] % 0x10, s[1..])
    else if s[0] < 0x80 then (s[0], s[1..])
    else
      var r := TakeAt(s[1..], k + 1);
      (s[0] % 0x80 + 0x80 * r.0, r.1)
  }

  function Take(s: seq<byte>): (nat, seq<byte>) { TakeAt(s, 0) }

  /** 128 to the k: what a byte at that place counts for. */
  function Scale(k: nat): nat
    requires k <= 4
  {
    if k == 0 then 1 else if k == 1 then 0x80 else if k == 2 then 0x4000 else if k == 3 then 0x20_0000 else 0x1000_0000
  }

  /** How far a number may go at place k to fit 32 bits in all. */
  function Room(k: nat): nat
    requires k <= 4
  {
    if k == 0 then U32 else if k == 1 then 0x200_0000 else if k == 2 then 0x4_0000 else if k == 3 then 0x800 else 0x10
  }

  lemma {:induction false} VarintRoundTrip(v: nat, k: nat, rest: seq<byte>)
    requires k <= 4 && v < Room(k)
    ensures TakeAt(Varint(v) + rest, k) == (v, rest)
    decreases 4 - k
  {
    if v >= 0x80 {
      assert (Varint(v) + rest)[1..] == Varint(v / 0x80) + rest;
      VarintRoundTrip(v / 0x80, k + 1, rest);
    }
  }

  /** Shifting a byte's bits to its place, in 32 bits. */
  lemma {:induction false} ScaleByte(b: byte, k: nat, r: nat)
    requires k <= 4
    ensures b % 0x80 * Scale(k) % U32 == if k == 4 then b % 0x10 * Scale(4) else b % 0x80 * Scale(k)
    ensures k < 4 ==> (b % 0x80 + 0x80 * r) * Scale(k) == b % 0x80 * Scale(k) + r * Scale(k + 1)
  {
    if k == 4 { assert b % 0x80 == b % 0x80 / 0x10 * 0x10 + b % 0x10; }
  }

  method AppendVarint(buf: seq<byte>, v: nat) returns (out: seq<byte>)
    ensures out == buf + Varint(v)
  {
    out := buf;
    var x := v;
    while x >= 0x80
      invariant out + Varint(x) == buf + Varint(v)
    {
      out := out + [x % 0x80 + 0x80];
      x := x / 0x80;
    }
    out := out + [x];
  }

  lemma {:induction false} TakeStep(s: seq<byte>, k: nat)
    requires k <= 4 && s != []
    ensures var part := s[0] % 0x80 * Scale(k) % U32;
      if s[0] < 0x80 || k == 4 then TakeAt(s, k).0 * Scale(k) == part && TakeAt(s, k).1 == s[1..]
      else
        var r := TakeAt(s[1..], k + 1);
        TakeAt(s, k).0 * Scale(k) == part + r.0 * Scale(k + 1) && TakeAt(s, k).1 == r.1
  {
    ScaleByte(s[0], k, if k < 4 then TakeAt(s[1..], k + 1).0 else 0);
  }

  method DecodeVarint(data: seq<byte>) returns (v: nat, n: nat)
    ensures n <= |data| && Take(data) == (v, data[n..])
  {
    v, n := 0, 0;
    var k := 0;
    ghost var left := data;
    while n < |data|
      invariant 0 <= k <= 4 && n <= |data| && left == data[n..]
      invariant Take(data).0 == v + TakeAt(left, k).0 * Scale(k)
      invariant Take(data).1 == TakeAt(left, k).1
      decreases |data| - n
    {
      TakeStep(left, k);
      v := v + data[n] % 0x80 * Scale(k) % U32;
      left := left[1..];
      n := n + 1;
      if data[n - 1] < 0x80 || k == 4 { return; }
      k := k + 1;
    }
  }

  /** The flags as they go out: a route sets the hop count. */
  function WireFlags(f: Frame): nat
    requires f.flags < 0x1_0000
  {
    if f.route != 0 then f.flags - f.Hops() * 2048 + 2048 else f.flags
  }

  /** What comes before the flags. */
  datatype Head = Head(gwDst: nat, gwSrc: nat, rfByte: byte, doubled: nat, src: nat) {
    function Encode(): seq<byte> {
      Varint(gwDst) + Varint(gwSrc) + [rfByte] + Varint(doubled) + Varint(src)
    }
  }

  function EncodeAcks(f: Frame): seq<byte> {
    (if f.route != 0 then Varint(f.route) else [])
    + (if f.A() then Varint(f.ackDst) + Varint(f.ackCnt) else [])
  }

  function EncodeBody(f: Frame): seq<byte> {
    if f.W() then [f.wflags] + f.payload else []
  }

  function HeadOf(f: Frame): Head { Head(f.gwDst, f.gwSrc, f.rfByte, f.counter * 2 % U32, f.src) }

  function Encode(f: Frame): seq<byte>
    requires f.Valid()
  {
    HeadOf(f).Encode() + Le(WireFlags(f), 2) + EncodeAcks(f) + EncodeBody(f)
  }

  method AppendHead(h: Head) returns (buf: seq<byte>)
    ensures buf == h.Encode()
  {
    buf := AppendVarint([], h.gwDst);
    buf := AppendVarint(buf, h.gwSrc);
    buf := buf + [h.rfByte];
    buf := AppendVarint(buf, h.doubled);
    buf := AppendVarint(buf, h.src);
  }

  method AppendAcks(buf: seq<byte>, f: Frame) returns (out: seq<byte>)
    ensures out == buf + EncodeAcks(f)
  {
    out := buf;
    if f.route != 0 {
      out := AppendVarint(out, f.route);
    }
    if f.A() {
      out := AppendVarint(out, f.ackDst);
      out := AppendVarint(out, f.ackCnt);
    }
  }

  method Serialize(f: Frame) returns (buf: seq<byte>)
    requires f.Valid()
    ensures buf == Encode(f)
  {
    buf := AppendHead(HeadOf(f));
    buf := buf + Le(WireFlags(f), 2);
    buf := AppendAcks(buf, f);
    if f.W() {
      buf := buf + [f.wflags];
      buf := buf + f.payload;
    }
  }

  lemma {:induction false} TakeVarint(v: nat, rest: seq<byte>)
    requires v < U32
    ensures Take(Varint(v) + rest) == (v, rest)
  {
    VarintRoundTrip(v, 0, rest);
  }

  /** The last of n hops. */
  function TakeHops(s: seq<byte>, n: nat, last: nat): (nat, seq<byte>)
    decreases n
  {
    if n == 0 then (last, s) else var r := Take(s); TakeHops(r.1, n - 1, r.0)
  }

  function DecodeHead(data: seq<byte>): Option<(Head, seq<byte>)> {
    var (gwDst, s1) := Take(data);
    var (gwSrc, s2) := Take(s1);
    if s2 == [] then None
    else
      var (cnt, s3) := Take(s2[1..]);
      var (src, s4) := Take(s3);
      Some((Head(gwDst, gwSrc, s2[0], cnt, src), s4))
  }

  function Bare(h: Head, flags: nat): Frame {
    Frame(h.gwDst, h.gwSrc, h.rfByte, h.doubled / 2, h.src, flags, 0, 0, 0, 0, [])
  }

  function Decode(data: seq<byte>): Option<Frame> {
    if |data| < 8 then None
    else match DecodeHead(data)
      case None => None
      case Some((h, s)) => if |s| < 2 then None else Some(DecodeRest(Bare(h, FromLe(s[..2])), s[2..]))
  }

  function DecodeRest(f: Frame, s: seq<byte>): Frame {
    var (g, t) := DecodeAcks(f, s);
    if f.W() && t != [] then g.(wflags := t[0], payload := t[1..]) else g
  }

  /** What follows the flags of f: a report's frame, or hops and acks. */
  function DecodeAcks(f: Frame, s: seq<byte>): (Frame, seq<byte>) {
    if f.Report() then
      var (dst, s1) := Take(s);
      var (cnt, s2) := Take(s1);
      (f.(ackDst := dst, ackCnt := cnt), s2)
    else
      var (route, s1) := TakeHops(s, f.Hops(), 0);
      if !f.A() then (f.(route := route), s1)
      else
        var (dst, s2) := if route != 0 then (route, s1) else Take(s1);
        var (cnt, s3) := Take(s2);
        (f.(route := route, ackDst := dst, ackCnt := cnt), s3)
  }

  /** The number at pos, and the position after it. */
  method Next(data: seq<byte>, pos: nat) returns (v: nat, next: nat)
    requires pos <= |data|
    ensures next <= |data| && Take(data[pos..]) == (v, data[next..])
  {
    var n;
    v, n := DecodeVarint(data[pos..]);
    next := pos + n;
    assert data[pos..][n..] == data[next..];
  }

  method ReadHead(data: seq<byte>) returns (r: Option<(Head, nat)>)
    ensures r.None? <==> DecodeHead(data).None?
    ensures r.Some? ==> r.value.1 <= |data| && DecodeHead(data) == Some((r.value.0, data[r.value.1..]))
  {
    assert data[0..] == data;
    var gwDst, pos := Next(data, 0);
    var gwSrc;
    gwSrc, pos := Next(data, pos);
    if pos >= |data| { return None; }
    var rf := data[pos];
    assert data[pos..][1..] == data[pos + 1..];
    var cnt;
    cnt, pos := Next(data, pos + 1);
    var src;
    src, pos := Next(data, pos);
    r := Some((Head(gwDst, gwSrc, rf, cnt, src), pos));
  }

  method Deserialize(data: seq<byte>) returns (frame: Option<Frame>)
    ensures frame == Decode(data)
  {
    if |data| < 8 { return None; }
    var head := ReadHead(data);
    if head.None? { return None; }
    var (h, pos) := head.value;
    if pos + 2 > |data| { return None; }
    var f := Bare(h, FromLe(data[pos..pos + 2]));
    assert data[pos..pos + 2] == data[pos..][..2] && data[pos + 2..] == data[pos..][2..];
    frame := ReadRest(f, data, pos + 2);
  }

  method ReadRest(f: Frame, data: seq<byte>, from: nat) returns (frame: Option<Frame>)
    requires from <= |data| && f.route == 0 && f.payload == []
    ensures frame == Some(DecodeRest(f, data[from..]))
  {
    var g, pos := ReadAcks(f, data, from);
    if f.W() && pos < |data| {
      g := g.(wflags := data[pos]);
      assert data[pos..][0] == data[pos] && data[pos..][1..] == data[pos + 1..];
      pos := pos + 1;
      if pos < |data| { g := g.(payload := data[pos..]); }
    }
    frame := Some(g);
  }

  method ReadAcks(f: Frame, data: seq<byte>, from: nat) returns (g: Frame, pos: nat)
    requires from <= |data| && f.route == 0
    ensures pos <= |data| && (g, data[pos..]) == DecodeAcks(f, data[from..])
    ensures g == f.(route := g.route, ackDst := g.ackDst, ackCnt := g.ackCnt)
  {
    g, pos := f, from;
    var v;
    if f.Report() {
      v, pos := Next(data, pos);
      g := g.(ackDst := v);
      v, pos := Next(data, pos);
      g := g.(ackCnt := v);
      return;
    }
    var hops := f.Hops();
    while hops > 0
      invariant pos <= |data| && g == f.(route := g.route)
      invariant TakeHops(data[pos..], hops, g.route) == TakeHops(data[from..], f.Hops(), 0)
    {
      v, pos := Next(data, pos);
      g := g.(route := v);
      hops := hops - 1;
    }
    if f.A() {
      if g.route != 0 {
        g := g.(ackDst := g.route);
      } else {
        v, pos := Next(data, pos);
        g := g.(ackDst := v);
      }
      v, pos := Next(data, pos);
      g := g.(ackCnt := v);
    }
  }

  lemma {:induction false} HeadRoundTrip(h: Head, rest: seq<byte>)
    requires h.gwDst < U32 && h.gwSrc < U32 && h.doubled < U32 && h.src < U32
    ensures DecodeHead(h.Encode() + rest) == Some((h, rest))
  {
    var t3 := Varint(h.src) + rest;
    var t2 := [h.rfByte] + (Varint(h.doubled) + t3);
    var t1 := Varint(h.gwSrc) + t2;
    assert h.Encode() + rest == Varint(h.gwDst) + t1;
    TakeVarint(h.gwDst, t1);
    TakeVarint(h.gwSrc, t2);
    assert t2[1..] == Varint(h.doubled) + t3;
    TakeVarint(h.doubled, t3);
    TakeVarint(h.src, rest);
  }

  lemma {:induction false} Halved(c: nat)
    requires c < U32
    ensures c * 2 % U32 / 2 == c % HALF
  {
  }

  lemma {:induction false} WireFlagsRead(f: Frame, rest: seq<byte>)
    requires f.Valid()
    ensures WireFlags(f) < 0x1_0000 && (WireFlags(f) == f.flags <==> f.route == 0 || f.Hops() == 1)
    ensures FromLe((Le(WireFlags(f), 2) + rest)[..2]) == WireFlags(f)
    ensures (Le(WireFlags(f), 2) + rest)[2..] == rest
  {
    PowValues();
    LeRoundTrip(WireFlags(f), 2);
    assert (Le(WireFlags(f), 2) + rest)[..2] == Le(WireFlags(f), 2);
  }

  /** What the decoder has left once it read the flags. */
  function Left(f: Frame): seq<byte> { EncodeAcks(f) + EncodeBody(f) }

  /** Any frame is read up to its flags. */
  lemma {:induction false} DecodesTo(f: Frame)
    requires f.Valid()
    ensures Decode(Encode(f)) ==
      if |Encode(f)| < 8 then None else Some(DecodeRest(Bare(HeadOf(f), WireFlags(f)), Left(f)))
  {
    var h, s := HeadOf(f), Le(WireFlags(f), 2) + Left(f);
    EncodeParts(h.Encode(), Le(WireFlags(f), 2), EncodeAcks(f), EncodeBody(f));
    HeadRoundTrip(h, s);
    WireFlagsRead(f, Left(f));
  }

  lemma {:induction false} EncodeParts(a: seq<byte>, b: seq<byte>, c: seq<byte>, d: seq<byte>)
    ensures a + b + c + d == a + (b + (c + d))
  {
  }

  /** f as it is read up to its flags. */
  function Begun(f: Frame): Frame {
    Frame(f.gwDst, f.gwSrc, f.rfByte, f.counter, f.src, f.flags, 0, 0, 0, 0, [])
  }

  lemma {:induction false} TakeNothing(n: nat)
    ensures Take([]) == (0, []) && TakeHops([], n, 0) == (0, [])
  {
    if n > 0 { TakeNothing(n - 1); }
  }

  lemma {:induction false} TakeShortens(s: seq<byte>)
    ensures s != [] ==> |Take(s).1| < |s|
    ensures s == [] || s == [0] ==> Take(s) == (0, [])
  {
    TakeAtShortens(s, 0);
  }

  lemma {:induction false} TakeAtShortens(s: seq<byte>, k: nat)
    requires k <= 4
    ensures s != [] ==> |TakeAt(s, k).1| < |s|
    decreases |s|
  {
    if s != [] && k < 4 && s[0] >= 0x80 { TakeAtShortens(s[1..], k + 1); }
  }

  lemma {:induction false} HopsShorten(s: seq<byte>, n: nat, last: nat)
    ensures |TakeHops(s, n, last).1| <= |s| && (n > 0 && s != [] ==> |TakeHops(s, n, last).1| < |s|)
    ensures s == [] || s == [0] ==> TakeHops(s, n, 0) == (0, if n == 0 then s else [])
    decreases n
  {
    if n > 0 {
      TakeShortens(s);
      HopsShorten(Take(s).1, n - 1, Take(s).0);
      TakeNothing(n - 1);
    }
  }

  /** What the decoder makes of a body once t is left of it. */
  lemma {:induction false} BodyReads(f: Frame, g: Frame, t: seq<byte>)
    requires g.wflags == 0 && g.payload == [] && g.flags == f.flags
    ensures var r := if f.W() && t != [] then g.(wflags := t[0], payload := t[1..]) else g;
      && (t == EncodeBody(f) ==> (r.wflags == f.wflags && r.payload == f.payload <==> f.W() || NoBody(f)))
      && (|t| < |EncodeBody(f)| || EncodeBody(f) == t == [] ==>
           (r.wflags == f.wflags && r.payload == f.payload <==> NoBody(f) && (f.W() ==> t == [])))
      && (|t| > |EncodeBody(f)| ==>
           (r.wflags == f.wflags && r.payload == f.payload <==> NoBody(f) && !f.W()))
  {
  }

  lemma {:induction false} NoFlagBits(flags: nat)
    requires flags % 8 == 0
    ensures flags / 2 % 2 == 0 && flags / 4 % 2 == 0
  {
    var m := flags / 8;
    assert flags == 2 * (4 * m) && flags == 4 * (2 * m);
    assert flags / 2 == 2 * (2 * m) && flags / 4 == 2 * m;
  }

  lemma {:induction false} ReportReads(f: Frame)
    requires f.Valid() && f.Report()
    ensures f.route == 0 ==> (DecodeRest(Begun(f), Left(f)) == f <==> Carried(f))
    ensures DecodeRest(Begun(f), Left(f)).route == 0
  {
    if f.route == 0 {
      NoFlagBits(f.flags);
      assert !f.W() && !f.A();
      assert Left(f) == [];
      TakeNothing(0);
    }
  }

  lemma {:induction false} RoutedReads(f: Frame)
    requires f.Valid() && !f.Report() && f.route != 0 && f.Hops() == 1
    ensures DecodeRest(Begun(f), Left(f)) == f <==> Carried(f)
  {
    var body := EncodeBody(f);
    if f.A() {
      var t := Varint(f.ackCnt) + body;
      assert Left(f) == Varint(f.route) + (Varint(f.ackDst) + t);
      TakeVarint(f.route, Varint(f.ackDst) + t);
      TakeVarint(f.ackDst, t);
      assert TakeHops(Left(f), 1, 0) == TakeHops(Varint(f.ackDst) + t, 0, f.route);
      BodyReads(f, Begun(f).(route := f.route, ackDst := f.route, ackCnt := f.ackDst), t);
    } else {
      assert Left(f) == Varint(f.route) + body;
      TakeVarint(f.route, body);
      assert TakeHops(Left(f), 1, 0) == TakeHops(body, 0, f.route);
      BodyReads(f, Begun(f).(route := f.route), body);
    }
  }

  lemma {:induction false} UncountedReads(f: Frame)
    requires f.Valid() && !f.Report() && f.route == 0 && f.Hops() > 0 && !f.A()
    ensures DecodeRest(Begun(f), Left(f)) == f <==> Carried(f)
  {
    var body := EncodeBody(f);
    assert Left(f) == body;
    HopsShorten(body, f.Hops(), 0);
    var (route, t) := TakeHops(body, f.Hops(), 0);
    BodyReads(f, Begun(f).(route := route), t);
  }

  /** What acknowledging does with the body once hops took the fields. */
  lemma {:induction false} UncountedAckReads(f: Frame)
    requires f.Valid() && !f.Report() && f.route == 0 && f.Hops() > 0 && f.A()
    ensures DecodeRest(Begun(f), Left(f)) == f <==> Carried(f)
  {
    var body := EncodeBody(f);
    var after := Varint(f.ackCnt) + body;
    assert Left(f) == Varint(f.ackDst) + after;
    TakeVarint(f.ackDst, after);
    TakeVarint(f.ackCnt, body);
    if f.Hops() == 1 {
      assert TakeHops(Left(f), 1, 0) == TakeHops(after, 0, f.ackDst);
      TakeShortens(body);
      var (cnt, t) := Take(body);
      BodyReads(f, Begun(f).(ackDst := f.ackCnt, ackCnt := cnt), t);
    } else {
      var (route, s) := TakeHops(body, f.Hops() - 2, f.ackCnt);
      assert TakeHops(Left(f), f.Hops(), 0) == TakeHops(after, f.Hops() - 1, f.ackDst) == (route, s);
      HopsShorten(body, f.Hops() - 2, f.ackCnt);
      TakeShortens(s);
      TakeShortens(Take(s).1);
      var (dst, s2) := Take(s);
      var (cnt, t) := Take(s2);
      if route == 0 { BodyReads(f, Begun(f).(ackDst := dst, ackCnt := cnt), t); }
      if f.ackCnt == 0 { HopsShorten(body, f.Hops() - 2, 0); }
    }
  }

  lemma {:induction false} PlainReads(f: Frame)
    requires f.Valid() && !f.Report() && f.route == 0 && f.Hops() == 0
    ensures DecodeRest(Begun(f), Left(f)) == f <==> Carried(f)
  {
    var body := EncodeBody(f);
    if f.A() {
      assert Left(f) == Varint(f.ackDst) + (Varint(f.ackCnt) + body);
      TakeVarint(f.ackDst, Varint(f.ackCnt) + body);
      TakeVarint(f.ackCnt, body);
      BodyReads(f, Begun(f).(ackDst := f.ackDst, ackCnt := f.ackCnt), body);
    } else {
      assert Left(f) == body;
      BodyReads(f, Begun(f), body);
    }
  }

  lemma {:induction false} CarriedReads(f: Frame)
    requires f.Valid() && (f.route == 0 || f.Hops() == 1)
    ensures DecodeRest(Begun(f), Left(f)) == f <==> Carried(f)
  {
    if f.Report() { ReportReads(f); }
    else if f.route != 0 { RoutedReads(f); }
    else if f.Hops() == 0 { PlainReads(f); }
    else if f.A() { UncountedAckReads(f); }
    else { UncountedReads(f); }
  }

  lemma {:induction false} FieldsKept(f: Frame, s: seq<byte>)
    ensures var r := DecodeRest(f, s);
      && r.gwDst == f.gwDst && r.gwSrc == f.gwSrc && r.rfByte == f.rfByte && r.counter == f.counter
      && r.src == f.src && r.flags == f.flags
    ensures forall c :: DecodeRest(f.(counter := c), s) == DecodeRest(f, s).(counter := c)
  {
  }

  lemma {:induction false} RestReadsBack(f: Frame)
    requires f.Valid()
    ensures DecodeRest(Bare(HeadOf(f), WireFlags(f)), Left(f)) == f <==> f.counter < HALF && Carried(f)
  {
    WireFlagsRead(f, []);
    Halved(f.counter);
    var g := Bare(HeadOf(f), WireFlags(f));
    FieldsKept(g, Left(f));
    if WireFlags(f) == f.flags {
      CarriedReads(f);
      assert g.(counter := f.counter) == Begun(f);
    }
  }

  /** Of all frames, those come back as they were that are at least eight bytes
      long, have a counter below 2^31 and fields as their flags say; no other
      does. */
  lemma {:induction false} RoundTripExactly(f: Frame)
    requires f.Valid()
    ensures Decode(Encode(f)) == Some(f) <==> |Encode(f)| >= 8 && f.counter < HALF && Carried(f)
  {
    DecodesTo(f);
    RestReadsBack(f);
  }

  /** A frame with fields as its flags say loses nothing but the top bit of its
      counter, which the doubling on the wire drops. */
  lemma {:induction false} RoundTrip(f: Frame)
    requires f.Valid() && Carried(f)
    ensures Decode(Encode(f)) == if |Encode(f)| < 8 then None else Some(f.(counter := f.counter % HALF))
  {
    DecodesTo(f);
    WireFlagsRead(f, []);
    Halved(f.counter);
    CarriedReads(f);
    FieldsKept(Begun(f), Left(f));
    assert Bare(HeadOf(f), WireFlags(f)) == Begun(f).(counter := f.counter % HALF);
  }
}
