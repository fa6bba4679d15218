/** H.264 over RTP (internal/publisher/h264rtp.go), and a receiver that
    follows sections 5.6 and 5.8 of RFC 6184. */

module RtpModel {
  import opened Bytes
  import opened Samples

  const Mtu := 1378
  const FuMtu := 1376
  const FuA := 28

  datatype Packet = Packet(payloadType: byte, seqno: nat, timestamp: nat, ssrc: nat, marker: bool, payload: seq<byte>)

  /** How many fragments a NAL too long for one packet takes. */
  function FuCount(nal: seq<byte>): (k: nat)
    requires |nal| > Mtu
    ensures k >= 2 && FuMtu * (k - 1) < |nal| - 1 <= FuMtu * k
  {
    (|nal| - 1 + FuMtu - 1) / FuMtu
  }

  /** Fragment k: the NAL's own header bits around type 28, then its type
      with the start and end marks. */
  function Fu(nal: seq<byte>, k: nat): seq<byte>
    requires |nal| > Mtu && k < FuCount(nal)
  {
    var t := nal[0] % 32;
    var last := k == FuCount(nal) - 1;
    [nal[0] - t + FuA, t + (if k == 0 then 0x80 else 0) + (if last then 0x40 else 0)]
    + nal[1 + FuMtu * k..if last then |nal| else 1 + FuMtu * (k + 1)]
  }

  /** The payloads that carry a NAL. */
  function Loads(nal: seq<byte>): seq<seq<byte>> {
    if nal == [] then []
    else if |nal| <= Mtu then [nal]
    else seq(FuCount(nal), k requires 0 <= k < FuCount(nal) => Fu(nal, k))
  }

  /** The number n packets after from. */
  function Later(from: nat, n: nat): (r: nat)
    requires from < 0x1_0000
    ensures r < 0x1_0000
  {
    if n == 0 then from
    else
      var r := Later(from, n - 1);
      if r == 0xffff then 0 else r + 1
  }

  lemma {:induction false} LaterIsModular(from: nat, n: nat)
    requires from < 0x1_0000
    ensures Later(from, n) == (from + n) % 0x1_0000
  {
    if n > 0 { LaterIsModular(from, n - 1); }
  }

  lemma {:induction false} LaterTwice(from: nat, m: nat, n: nat)
    requires from < 0x1_0000
    ensures Later(Later(from, m), n) == Later(from, m + n)
  {
    if n > 0 { LaterTwice(from, m, n - 1); }
  }

  /** A packetizer's fields. */
  datatype Sender = Sender(ssrc: nat, payloadType: byte, seqno: nat, timestamp: nat, sps: seq<byte>, pps: seq<byte>)
  {
    predicate Valid() { seqno < 0x1_0000 }

    function One(i: nat, marker: bool, load: seq<byte>): Packet
      requires Valid()
    {
      Packet(payloadType, Later(seqno, i), timestamp, ssrc, marker, load)
    }

    /** Packets of the given payloads, numbered on; the marker goes on the last. */
    function Packets(loads: seq<seq<byte>>, marker: bool): seq<Packet>
      requires Valid()
    {
      seq(|loads|, i requires 0 <= i < |loads| => One(i, marker && i == |loads| - 1, loads[i]))
    }

    /** What is sent with a NAL: before an IDR, the parameter sets known. */
    function Sets(nal: seq<byte>): seq<seq<byte>> {
      if NalType(nal) == IDR then Loads(sps) + Loads(pps) else []
    }

    function LoadsFor(nal: seq<byte>): seq<seq<byte>> { Sets(nal) + Loads(nal) }

    function After(nal: seq<byte>): Sender
      requires Valid()
    {
      this.(seqno := Later(seqno, |LoadsFor(nal)|),
            sps := if NalType(nal) == SPS then nal else sps,
            pps := if NalType(nal) == PPS then nal else pps)
    }

    /** Packets of a, then packets of b, are packets of both. */
    lemma {:induction false} PacketsJoin(a: seq<seq<byte>>, b: seq<seq<byte>>, marker: bool)
      requires Valid() && (b != [] || !marker)
      ensures Packets(a, false) + this.(seqno := Later(seqno, |a|)).Packets(b, marker) == Packets(a + b, marker)
    {
      forall i | 0 <= i < |b| ensures Later(Later(seqno, |a|), i) == Later(seqno, |a| + i) {
        LaterTwice(seqno, |a|, i);
      }
    }
  }

  /** A receiver: the NAL whose fragments are coming in, and the whole ones. */
  datatype Receiver = Receiver(part: seq<byte>, nals: seq<seq<byte>>)
  {
    function Feed(load: seq<byte>): Receiver {
      if load == [] then this
      else
        var t := load[0] % 32;
        if 1 <= t <= 23 then Receiver([], nals + [load])
        else if t != FuA || |load| < 2 then this
        else
          var whole := (if load[1] >= 0x80 then [load[0] - t + load[1] % 32] else part) + load[2..];
          if load[1] % 0x80 >= 0x40 then Receiver([], nals + [whole]) else Receiver(whole, nals)
    }

    function FeedFirst(loads: seq<seq<byte>>, n: nat): Receiver
      requires n <= |loads|
    {
      if n == 0 then this else FeedFirst(loads, n - 1).Feed(loads[n - 1])
    }

    function FeedAll(loads: seq<seq<byte>>): Receiver { FeedFirst(loads, |loads|) }
  }

  /** A fragment carries at most the payload size and never both marks. */
  lemma {:induction false} FuShape(nal: seq<byte>, k: nat)
    requires |nal| > Mtu && k < FuCount(nal)
    ensures var f := Fu(nal, k);
      && 2 < |f| <= Mtu
      && (f[1] >= 0x80 <==> k == 0)
      && (f[1] % 0x80 >= 0x40 <==> k == FuCount(nal) - 1)
      && !(f[1] >= 0x80 && f[1] % 0x80 >= 0x40)
      && f[0] % 32 == FuA && f[0] - FuA + f[1] % 32 == nal[0]
  {
  }

  lemma {:induction false} FeedPrefix(r: Receiver, a: seq<seq<byte>>, b: seq<seq<byte>>, n: nat)
    requires n <= |a|
    ensures r.FeedFirst(a + b, n) == r.FeedFirst(a, n)
  {
    if n > 0 { FeedPrefix(r, a, b, n - 1); }
  }

  lemma {:induction false} FeedSuffix(r: Receiver, a: seq<seq<byte>>, b: seq<seq<byte>>, n: nat)
    requires n <= |b|
    ensures r.FeedFirst(a + b, |a| + n) == r.FeedAll(a).FeedFirst(b, n)
  {
    if n > 0 { FeedSuffix(r, a, b, n - 1); } else { FeedPrefix(r, a, b, |a|); }
  }

  lemma {:induction false} FeedBoth(r: Receiver, a: seq<seq<byte>>, b: seq<seq<byte>>)
    ensures r.FeedAll(a + b) == r.FeedAll(a).FeedAll(b)
  {
    FeedSuffix(r, a, b, |b|);
  }

  /** What fragment k makes of a receiver that has those before it. */
  lemma {:induction false} FuFeeds(r: Receiver, nal: seq<byte>, k: nat)
    requires |nal| > Mtu && k < FuCount(nal)
    requires k > 0 ==> r.part == nal[..1 + FuMtu * k]
    ensures r.Feed(Fu(nal, k)) ==
            if k == FuCount(nal) - 1 then Receiver([], r.nals + [nal])
            else Receiver(nal[..1 + FuMtu * (k + 1)], r.nals)
  {
    FuShape(nal, k);
    var from, to := 1 + FuMtu * k, if k == FuCount(nal) - 1 then |nal| else 1 + FuMtu * (k + 1);
    assert Fu(nal, k)[2..] == nal[from..to];
    assert nal[..from] + nal[from..to] == nal[..to];
    assert nal[..1] == [nal[0]] && nal[..|nal|] == nal;
  }

  lemma {:induction false} FusFeed(r: Receiver, nal: seq<byte>, k: nat)
    requires |nal| > Mtu && 0 < k <= FuCount(nal)
    ensures r.FeedFirst(Loads(nal), k) ==
            if k == FuCount(nal) then Receiver([], r.nals + [nal]) else Receiver(nal[..1 + FuMtu * k], r.nals)
  {
    if k > 1 { FusFeed(r, nal, k - 1); }
    FuFeeds(r.FeedFirst(Loads(nal), k - 1), nal, k - 1);
  }

  /** A NAL of a single type comes back whole from its payloads. */
  lemma {:induction false} NalArrives(r: Receiver, nal: seq<byte>)
    requires 1 <= NalType(nal) <= 23
    ensures r.FeedAll(Loads(nal)) == Receiver([], r.nals + [nal])
  {
    if |nal| <= Mtu {
      assert r.FeedFirst([nal], 1) == r.FeedFirst([nal], 0).Feed(nal);
    } else {
      FusFeed(r, nal, FuCount(nal));
    }
  }

  /** No payload is empty or too long. */
  lemma {:induction false} LoadsFit(nal: seq<byte>, i: nat)
    requires i < |Loads(nal)|
    ensures 0 < |Loads(nal)[i]| <= Mtu
  {
    if |nal| > Mtu { FuShape(nal, i); }
  }

  /** The parameter sets kept are what they are kept as. */
  predicate Knows(s: Sender) {
    (s.sps == [] || NalType(s.sps) == SPS) && (s.pps == [] || NalType(s.pps) == PPS)
  }

  function Known(nal: seq<byte>): seq<seq<byte>> { if nal == [] then [] else [nal] }

  /** The parameter sets a receiver gets before a NAL. */
  function Before(s: Sender, nal: seq<byte>): seq<seq<byte>> {
    if NalType(nal) == IDR then Known(s.sps) + Known(s.pps) else []
  }

  lemma {:induction false} SetArrives(r: Receiver, nal: seq<byte>)
    requires nal == [] || 1 <= NalType(nal) <= 23
    requires r.part == []
    ensures r.FeedAll(Loads(nal)) == Receiver([], r.nals + Known(nal))
  {
    if nal != [] { NalArrives(r, nal); } else { assert r.nals + [] == r.nals; }
  }

  lemma {:induction false} KnowsAfter(s: Sender, nal: seq<byte>)
    requires s.Valid() && Knows(s)
    ensures Knows(s.After(nal))
  {
  }

  /** The receiver gets each NAL sent, and before an IDR the parameter sets. */
  lemma {:induction false} SentArrives(s: Sender, r: Receiver, nal: seq<byte>)
    requires s.Valid() && Knows(s) && 1 <= NalType(nal) <= 23 && r.part == []
    ensures r.FeedAll(s.LoadsFor(nal)) ==
            Receiver([], r.nals + Before(s, nal) + [nal])
  {
    var sets := s.Sets(nal);
    FeedBoth(r, sets, Loads(nal));
    if NalType(nal) == IDR {
      FeedBoth(r, Loads(s.sps), Loads(s.pps));
      SetArrives(r, s.sps);
      SetArrives(Receiver([], r.nals + Known(s.sps)), s.pps);
      assert r.nals + Known(s.sps) + Known(s.pps) == r.nals + (Known(s.sps) + Known(s.pps));
    } else {
      assert r.nals + [] == r.nals;
    }
    NalArrives(r.FeedAll(sets), nal);
  }
}

module RtpClass {
  import opened Bytes
  import opened Samples
  import opened RtpModel

  class Packetizer {
    const ssrc: nat
    var payloadType: byte
    var seqno: nat
    var timestamp: nat
    var sps: seq<byte>
    var pps: seq<byte>

    /** first stands for the clock bits that pick the first sequence number. */
    constructor (ssrc: nat, first: nat)
      ensures View() == Sender(ssrc, 99, first % 0x1_0000, 0, [], [])
    {
      this.ssrc, payloadType, seqno, timestamp := ssrc, 99, first % 0x1_0000, 0;
      sps, pps := [], [];
    }

    function View(): Sender
      reads this
    {
      Sender(ssrc, payloadType, seqno, timestamp, sps, pps)
    }

    method Packetize(nal: seq<byte>, isLast: bool) returns (pkts: seq<Packet>)
      requires View().Valid()
      modifies this
      ensures nal == [] ==> pkts == [] && View() == old(View())
      ensures nal != [] ==> View() == old(View()).After(nal)
      ensures nal != [] ==> pkts == old(View()).Packets(old(View()).LoadsFor(nal), isLast)
      ensures View().Valid()
    {
      pkts := [];
      if nal == [] { return; }
      if NalType(nal) == SPS { sps := nal; }
      if NalType(nal) == PPS { pps := nal; }
      if NalType(nal) == IDR { pkts := PacketizeSets(); }
      ghost var was := old(View());
      assert pkts == was.Packets(was.Sets(nal), false);
      var c := PacketizeNal(nal, isLast);
      was.PacketsJoin(was.Sets(nal), Loads(nal), isLast);
      LaterTwice(was.seqno, |was.Sets(nal)|, |Loads(nal)|);
      pkts := pkts + c;
    }

    /** The parameter sets known. */
    method PacketizeSets() returns (pkts: seq<Packet>)
      requires View().Valid()
      modifies this`seqno
      ensures pkts == old(View()).Packets(Loads(sps) + Loads(pps), false)
      ensures seqno == Later(old(seqno), |Loads(sps) + Loads(pps)|)
    {
      var a := PacketizeNal(sps, false);
      var b := PacketizeNal(pps, false);
      old(View()).PacketsJoin(Loads(sps), Loads(pps), false);
      LaterTwice(old(seqno), |Loads(sps)|, |Loads(pps)|);
      pkts := a + b;
    }

    method PacketizeNal(nal: seq<byte>, setMarker: bool) returns (pkts: seq<Packet>)
      requires View().Valid()
      modifies this`seqno
      ensures pkts == old(View()).Packets(Loads(nal), setMarker)
      ensures seqno == Later(old(seqno), |Loads(nal)|)
    {
      pkts := [];
      if nal == [] { return; }
      if |nal| <= Mtu {
        var p := MakePacket(nal, setMarker);
        return [p];
      }
      pkts := Fragment(nal, setMarker);
    }

    /** A NAL in fragments, the first marked as start and the last as end. */
    method Fragment(nal: seq<byte>, setMarker: bool) returns (pkts: seq<Packet>)
      requires View().Valid() && |nal| > Mtu
      modifies this`seqno
      ensures pkts == old(View()).Packets(Loads(nal), setMarker)
      ensures seqno == Later(old(seqno), |Loads(nal)|)
    {
      pkts := [];
      ghost var was, n := View(), FuCount(nal);
      var header, body := nal[0], nal[1..];
      var off := 0;
      ghost var k := 0;
      while off < |body|
        invariant off == FuMtu * k && k == |pkts| <= n
        invariant forall i :: 0 <= i < k ==> pkts[i] == was.One(i, setMarker && i == n - 1, Fu(nal, i))
        invariant seqno == Later(was.seqno, k)
      {
        var end := off + FuMtu;
        if end > |body| { end := |body|; }
        var fu := header % 32;
        if off == 0 { fu := fu + 0x80; }
        if end == |body| { fu := fu + 0x40; }
        var load := [header - header % 32 + FuA, fu] + body[off..end];
        assert body[off..end] == nal[1 + off..1 + end];
        assert load == Fu(nal, k);
        var p := MakePacket(load, setMarker && end == |body|);
        pkts := pkts + [p];
        off, k := off + FuMtu, k + 1;
      }
      assert k == n;
    }

    method MakePacket(payload: seq<byte>, marker: bool) returns (p: Packet)
      requires View().Valid()
      modifies this`seqno
      ensures p == old(View()).One(0, marker, payload)
      ensures seqno == Later(old(seqno), 1)
    {
      p := Packet(payloadType, seqno, timestamp, ssrc, marker, payload);
      assert Later(seqno, 1) == if Later(seqno, 0) == 0xffff then 0 else Later(seqno, 0) + 1;
      seqno := if seqno == 0xffff then 0 else seqno + 1;
    }
  }
}
