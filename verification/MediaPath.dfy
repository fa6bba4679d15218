/** The path of a frame: fragments, byte stream, NAL units, RTP packets. */

module MediaPath {
  import opened Wrappers
  import opened Bytes
  import opened Samples
  import opened Multicast
  import opened MulticastProofs
  import opened AnnexB
  import opened AnnexBProofs
  import opened RtpModel

  /** The sender after the first n NALs. */
  function Sent(s: Sender, nals: seq<seq<byte>>, n: nat): (r: Sender)
    requires n <= |nals| && s.Valid()
    ensures r.Valid()
  {
    if n == 0 then s else Sent(s, nals, n - 1).After(nals[n - 1])
  }

  /** A receiver fed with their payloads. */
  function Received(s: Sender, nals: seq<seq<byte>>, n: nat): Receiver
    requires n <= |nals| && s.Valid()
  {
    if n == 0 then Receiver([], [])
    else Received(s, nals, n - 1).FeedAll(Sent(s, nals, n - 1).LoadsFor(nals[n - 1]))
  }

  /** The NALs, each IDR behind the newest parameter sets before it. */
  function Shown(s: Sender, nals: seq<seq<byte>>, n: nat): seq<seq<byte>>
    requires n <= |nals| && s.Valid()
  {
    if n == 0 then []
    else
      Shown(s, nals, n - 1) + RtpModel.Before(Sent(s, nals, n - 1), nals[n - 1]) + [nals[n - 1]]
  }

  lemma {:induction false} KnowsStays(s: Sender, nals: seq<seq<byte>>, n: nat)
    requires n <= |nals| && s.Valid() && Knows(s)
    ensures Knows(Sent(s, nals, n))
  {
    if n > 0 {
      KnowsStays(s, nals, n - 1);
      KnowsAfter(Sent(s, nals, n - 1), nals[n - 1]);
    }
  }

  lemma {:induction false} NalsArrive(s: Sender, nals: seq<seq<byte>>, n: nat)
    requires n <= |nals| && s.Valid() && Knows(s)
    requires forall i :: 0 <= i < n ==> 1 <= NalType(nals[i]) <= 23
    ensures Received(s, nals, n) == Receiver([], Shown(s, nals, n))
  {
    if n > 0 {
      NalsArrive(s, nals, n - 1);
      KnowsStays(s, nals, n - 1);
      SentArrives(Sent(s, nals, n - 1), Received(s, nals, n - 1), nals[n - 1]);
    }
  }

  /** A frame of sound NALs, in fragments in any order, reaches the viewer:
      whole at its last fragment, then NAL by NAL. */
  lemma {:induction false} FrameReachesTheViewer(a: Asm, fs: seq<Fragment>, seqno: nat, u: Units, s: Sender)
    requires u.NoneEmpty() && u.NoneBroken() && u.NoneTrails()
    requires forall nal :: nal in u.Nals() ==> 1 <= NalType(nal) <= 23
    requires CutUp(fs, u.Stream(), seqno) && fs != [] && !a.GoesOn(fs[0])
    requires s.Valid() && Knows(s)
    ensures forall n :: 1 <= n < |fs| ==> Out(a, fs, n).None?
    ensures Out(a, fs, |fs|) == Some(u.Stream())
    ensures var nals := Split(u.Stream());
      nals == u.Nals() && Received(s, nals, |nals|).nals == Shown(s, nals, |nals|)
  {
    forall n | 1 <= n <= |fs| ensures Out(a, fs, n) == if n < |fs| then None else Some(u.Stream()) {
      AnyOrderAssembles(a, fs, u.Stream(), seqno, n);
    }
    SplitsBackExactly(u);
    var nals := u.Nals();
    forall i | 0 <= i < |nals| ensures 1 <= NalType(nals[i]) <= 23 { assert nals[i] in nals; }
    NalsArrive(s, nals, |nals|);
  }
}
