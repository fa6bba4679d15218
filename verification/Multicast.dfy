/** The encoder's multicast frames (internal/camera/multicast.go). */

module Multicast {
  import opened Wrappers
  import opened Bytes

  const Header := 24

  datatype Fragment = Fragment(ts: nat, seqno: nat, offset: nat, total: nat, data: seq<byte>)
  {
    predicate Valid() { offset + |data| <= total < U32 }

    /** Whether the fragment carries position i of its frame. */
    predicate Holds(i: nat) { offset <= i < offset + |data| }
  }

  /** A fragment from its packet; None for a packet out of bounds. */
  function Parse(p: seq<byte>): (r: Option<Fragment>)
    ensures r.Some? ==> r.value.Valid()
  {
    if |p| < Header then None
    else
      FromLeBound(p[18..22]);
      PowValues();
      var size := FromLe(p[22..24]);
      var offset, total := FromLe(p[14..18]), FromLe(p[18..22]);
      if Header + size > |p| || offset + size > total then None
      else Some(Fragment(FromLe(p[0..8]), FromLe(p[10..14]), offset, total, p[Header..Header + size]))
  }

  /** The packet of a fragment: flags and numbering, of no use here, and
      whatever bytes follow the data. */
  function Packet(f: Fragment, flags: byte, nm: byte, after: seq<byte>): seq<byte> {
    Le(f.ts, 8) + [flags, nm] + Le(f.seqno, 4) + Le(f.offset, 4) + Le(f.total, 4) + Le(|f.data|, 2) + f.data + after
  }

  /** The assembler's fields. */
  datatype Asm = Asm(started: bool, seqno: nat, buf: seq<byte>, have: nat, ts: nat)
  {
    /** Whether f goes on with the frame being assembled. */
    predicate GoesOn(f: Fragment) { started && f.seqno == seqno && |buf| == f.total }

    /** Ready for f: started over unless f goes on. */
    function For(f: Fragment): Asm {
      if GoesOn(f) then this else Asm(true, f.seqno, seq(f.total, i => 0), 0, f.ts)
    }

    /** With f copied in and its bytes counted. */
    function With(f: Fragment): Asm
      requires f.Valid() && |buf| == f.total
    {
      this.(buf := seq(|buf|, i requires 0 <= i < |buf| => if f.Holds(i) then f.data[i - f.offset] else buf[i]),
            have := (have + |f.data|) % U32)
    }

    function Add(f: Fragment): (r: (Asm, Option<seq<byte>>))
      requires f.Valid()
    {
      var a := For(f).With(f);
      if a.have < f.total then (a, None) else (a.(started := false, buf := []), Some(a.buf))
    }
  }

  class Assembler {
    var seqno: nat
    var started: bool
    var buf: array<byte>
    var have: nat
    var ts: nat

    constructor ()
      ensures View() == Asm(false, 0, [], 0, 0) && fresh(buf)
    {
      seqno, started, have, ts := 0, false, 0, 0;
      buf := new byte[0];
    }

    function View(): Asm
      reads this, buf
    {
      Asm(started, seqno, buf[..], have, ts)
    }

    /** Takes a fragment; returns the whole frame once it is complete. */
    method Add(f: Fragment) returns (r: Option<seq<byte>>)
      requires f.Valid()
      modifies this, buf
      ensures (View(), r) == old(View()).Add(f)
      ensures buf == old(buf) || fresh(buf)
    {
      if !started || f.seqno != seqno || buf.Length != f.total {
        started, seqno, have := true, f.seqno, 0;
        buf := new byte[f.total](i => 0);
        ts := f.ts;
      }
      assert View() == old(View()).For(f);
      ghost var was := View();
      forall i | 0 <= i < |f.data| { buf[f.offset + i] := f.data[i]; }
      have := (have + |f.data|) % U32;
      assert buf[..] == was.With(f).buf;
      if have < f.total { return None; }
      r := Some(buf[..]);
      started, buf := false, new byte[0];
      assert buf[..] == [];
    }
  }
}

module MulticastProofs {
  import opened Wrappers
  import opened Bytes
  import opened Multicast

  /** A fragment's packet parses back to it, whatever its flags and tail. */
  lemma {:induction false} ParsesBack(f: Fragment, flags: byte, nm: byte, after: seq<byte>)
    requires f.Valid() && f.ts < Pow256(8) && f.seqno < U32 && |f.data| < 0x1_0000
    ensures Parse(Packet(f, flags, nm, after)) == Some(f)
  {
    PowValues();
    LeRoundTrip(f.ts, 8);
    LeRoundTrip(f.seqno, 4);
    LeRoundTrip(f.offset, 4);
    LeRoundTrip(f.total, 4);
    LeRoundTrip(|f.data|, 2);
    HeaderParts(Packet(f, flags, nm, after), Le(f.ts, 8), [flags, nm], Le(f.seqno, 4), Le(f.offset, 4),
                Le(f.total, 4), Le(|f.data|, 2), f.data, after);
  }

  lemma {:induction false} HeaderParts(p: seq<byte>, ts: seq<byte>, x: seq<byte>, seqno: seq<byte>, offset: seq<byte>,
                                       total: seq<byte>, size: seq<byte>, data: seq<byte>, after: seq<byte>)
    requires p == ts + x + seqno + offset + total + size + data + after
    requires |ts| == 8 && |x| == 2 && |seqno| == |offset| == |total| == 4 && |size| == 2
    ensures p[0..8] == ts && p[10..14] == seqno && p[14..18] == offset && p[18..22] == total
    ensures p[22..24] == size && p[24..24 + |data|] == data
  {
  }

  /** f carries a non-empty part of the frame. */
  ghost predicate PartOf(f: Fragment, frame: seq<byte>, seqno: nat) {
    && f.Valid() && f.seqno == seqno && f.total == |frame|
    && f.data != [] && f.data == frame[f.offset..f.offset + |f.data|]
  }

  predicate Disjoint(f: Fragment, g: Fragment) {
    f.offset + |f.data| <= g.offset || g.offset + |g.data| <= f.offset
  }

  /** The assembler after n fragments. */
  function Fed(a: Asm, fs: seq<Fragment>, n: nat): Asm
    requires n <= |fs| && forall k :: 0 <= k < |fs| ==> fs[k].Valid()
  {
    if n == 0 then a else Fed(a, fs, n - 1).Add(fs[n - 1]).0
  }

  /** What the n-th fragment returned, n from 1. */
  function Out(a: Asm, fs: seq<Fragment>, n: nat): Option<seq<byte>>
    requires 1 <= n <= |fs| && forall k :: 0 <= k < |fs| ==> fs[k].Valid()
  {
    Fed(a, fs, n - 1).Add(fs[n - 1]).1
  }

  predicate InSpan(from: nat, n: nat, i: nat) { from <= i < from + n }

  function Span(from: nat, n: nat): set<nat> { set i: nat | i < from + n && InSpan(from, n, i) }

  lemma {:induction false} SpanSize(from: nat, n: nat)
    ensures |Span(from, n)| == n
  {
    if n > 0 {
      SpanSize(from, n - 1);
      assert Span(from, n) == Span(from, n - 1) + {from + n - 1};
    } else {
      assert Span(from, n) == {};
    }
  }

  /** The positions the first n fragments carry. */
  function Covered(fs: seq<Fragment>, n: nat): set<nat>
    requires n <= |fs|
  {
    if n == 0 then {} else Covered(fs, n - 1) + Span(fs[n - 1].offset, |fs[n - 1].data|)
  }

  /** fs are a frame cut up, each byte in exactly one of them, in any order. */
  ghost predicate CutUp(fs: seq<Fragment>, frame: seq<byte>, seqno: nat) {
    && (forall k :: 0 <= k < |fs| ==> PartOf(fs[k], frame, seqno))
    && (forall j, k :: 0 <= j < k < |fs| ==> Disjoint(fs[j], fs[k]))
    && Covered(fs, |fs|) == Span(0, |frame|)
  }

  lemma {:induction false} SetSums(s: set<nat>, t: set<nat>)
    requires s !! t
    ensures |s + t| == |s| + |t|
  {
  }

  lemma {:induction false} SubsetSize(s: set<nat>, t: set<nat>)
    requires s <= t
    ensures |s| <= |t| && (|s| == |t| ==> s == t)
  {
    assert t == s + (t - s);
    SetSums(s, t - s);
    if |t - s| == 0 { assert t - s == {}; }
  }

  lemma {:induction false} CoveredApart(fs: seq<Fragment>, n: nat, f: Fragment)
    requires n <= |fs| && forall k :: 0 <= k < n ==> Disjoint(fs[k], f)
    ensures Covered(fs, n) !! Span(f.offset, |f.data|)
  {
    if n > 0 { CoveredApart(fs, n - 1, f); }
  }

  lemma {:induction false} Grows(fs: seq<Fragment>, m: nat, n: nat)
    requires m <= n <= |fs|
    ensures Covered(fs, m) <= Covered(fs, n)
    decreases n - m
  {
    if m < n { Grows(fs, m + 1, n); }
  }

  /** Each fragment adds its bytes to the count of positions. */
  lemma {:induction false} CoveredAdds(fs: seq<Fragment>, n: nat)
    requires n < |fs| && forall k :: 0 <= k < n ==> Disjoint(fs[k], fs[n])
    ensures |Covered(fs, n + 1)| == |Covered(fs, n)| + |fs[n].data|
  {
    CoveredApart(fs, n, fs[n]);
    SpanSize(fs[n].offset, |fs[n].data|);
    SetSums(Covered(fs, n), Span(fs[n].offset, |fs[n].data|));
  }

  lemma {:induction false} CoveredWithin(fs: seq<Fragment>, n: nat, total: nat)
    requires n <= |fs| && Covered(fs, |fs|) == Span(0, total)
    ensures |Covered(fs, n)| <= total
  {
    Grows(fs, n, |fs|);
    SpanSize(0, total);
    SubsetSize(Covered(fs, n), Span(0, total));
  }

  lemma {:induction false} CoveredCounts(fs: seq<Fragment>, frame: seq<byte>, seqno: nat, n: nat)
    requires n < |fs| && CutUp(fs, frame, seqno)
    ensures |Covered(fs, n + 1)| == |Covered(fs, n)| + |fs[n].data|
    ensures |Covered(fs, n + 1)| <= |frame|
  {
    CoveredAdds(fs, n);
    CoveredWithin(fs, n + 1, |frame|);
  }

  lemma {:induction false} OnlyTheLastCompletes(fs: seq<Fragment>, frame: seq<byte>, seqno: nat, n: nat)
    requires n <= |fs| && CutUp(fs, frame, seqno)
    ensures |Covered(fs, n)| == |frame| <==> n == |fs|
  {
    SpanSize(0, |frame|);
    if n < |fs| {
      assert PartOf(fs[n], frame, seqno);
      CoveredCounts(fs, frame, seqno, n);
    }
  }

  /** The bytes of the first n fragments, counted as they come. */
  function Bulk(fs: seq<Fragment>, n: nat): nat
    requires n <= |fs|
  {
    if n == 0 then 0 else Bulk(fs, n - 1) + |fs[n - 1].data|
  }

  /** What the buffer holds after the first n fragments: the frame's bytes
      where one of them lies, zeros elsewhere. */
  function Filled(fs: seq<Fragment>, frame: seq<byte>, n: nat): seq<byte>
    requires n <= |fs|
  {
    seq(|frame|, i requires 0 <= i < |frame| => if i in Covered(fs, n) then frame[i] else 0)
  }

  ghost predicate Parts(fs: seq<Fragment>, frame: seq<byte>, seqno: nat) {
    forall k :: 0 <= k < |fs| ==> PartOf(fs[k], frame, seqno)
  }

  lemma {:induction false} WithFills(a: Asm, fs: seq<Fragment>, frame: seq<byte>, seqno: nat, n: nat)
    requires Parts(fs, frame, seqno) && n < |fs| && a.buf == Filled(fs, frame, n)
    ensures a.With(fs[n]).buf == Filled(fs, frame, n + 1)
  {
    var f := fs[n];
    assert PartOf(f, frame, seqno);
    forall i | 0 <= i < |frame| ensures a.With(f).buf[i] == Filled(fs, frame, n + 1)[i] {
      CoveredMore(fs, n, i);
      if f.Holds(i) { assert f.data[i - f.offset] == frame[i]; }
    }
  }

  lemma {:induction false} CoveredMore(fs: seq<Fragment>, n: nat, i: nat)
    requires n < |fs|
    ensures i in Covered(fs, n + 1) <==> i in Covered(fs, n) || fs[n].Holds(i)
  {
    assert InSpan(fs[n].offset, |fs[n].data|, i) <==> fs[n].Holds(i);
  }

  lemma {:induction false} StartsBlank(a: Asm, fs: seq<Fragment>, frame: seq<byte>)
    requires fs != [] && fs[0].total == |frame| && !a.GoesOn(fs[0])
    ensures a.For(fs[0]) == Asm(true, fs[0].seqno, Filled(fs, frame, 0), 0, fs[0].ts)
  {
    var b := a.For(fs[0]).buf;
    assert Covered(fs, 0) == {};
    forall i | 0 <= i < |frame| ensures b[i] == Filled(fs, frame, 0)[i] {}
    assert b == Filled(fs, frame, 0);
  }

  /** While the count is short of the total, the frame is being filled. */
  lemma {:induction false} FedFills(a: Asm, fs: seq<Fragment>, frame: seq<byte>, seqno: nat, n: nat)
    requires Parts(fs, frame, seqno) && n < |fs| && !a.GoesOn(fs[0])
    requires forall m :: 1 <= m <= n ==> Bulk(fs, m) < |frame|
    ensures var b := Fed(a, fs, n).For(fs[n]);
      b == Asm(true, seqno, Filled(fs, frame, n), Bulk(fs, n), fs[0].ts)
  {
    assert PartOf(fs[n], frame, seqno);
    if n == 0 {
      StartsBlank(a, fs, frame);
    } else {
      FedFills(a, fs, frame, seqno, n - 1);
      var b := Fed(a, fs, n - 1).For(fs[n - 1]);
      WithFills(b, fs, frame, seqno, n - 1);
      assert PartOf(fs[n - 1], frame, seqno);
      assert Bulk(fs, n) == Bulk(fs, n - 1) + |fs[n - 1].data| < |frame|;
      FillsOn(b, fs[n - 1], fs[n], |frame|);
    }
  }

  /** A fragment that does not complete the frame, and the next of the frame. */
  lemma {:induction false} FillsOn(b: Asm, f: Fragment, g: Fragment, total: nat)
    requires f.Valid() && b.GoesOn(f) && b.GoesOn(g) && b.have + |f.data| < total == f.total
    ensures b.Add(f).0.For(g) == b.With(f) && b.With(f).have == b.have + |f.data|
  {
  }

  /** What the parts of a frame, in any order, overlapping or repeated, make
      of it: nothing before their bytes count up to its size; then, unless the
      count went past 32 bits, the frame with zeros where none of them lies. */
  lemma {:induction false} PartsAssemble(a: Asm, fs: seq<Fragment>, frame: seq<byte>, seqno: nat, n: nat)
    requires Parts(fs, frame, seqno) && 1 <= n <= |fs| && !a.GoesOn(fs[0])
    requires forall m :: 1 <= m < n ==> Bulk(fs, m) < |frame|
    ensures Out(a, fs, n) ==
            if |frame| <= Bulk(fs, n) < U32 then Some(Filled(fs, frame, n)) else None
    ensures Bulk(fs, n) < U32 ==> Fed(a, fs, n).ts == fs[0].ts
  {
    assert PartOf(fs[n - 1], frame, seqno);
    FedFills(a, fs, frame, seqno, n - 1);
    WithFills(Fed(a, fs, n - 1).For(fs[n - 1]), fs, frame, seqno, n - 1);
  }

  /** So a frame comes out right exactly when what its first fragments, up to
      its size, leave out is zeros. */
  lemma {:induction false} FrameIsRightExactly(a: Asm, fs: seq<Fragment>, frame: seq<byte>, seqno: nat, n: nat)
    requires Parts(fs, frame, seqno) && 1 <= n <= |fs| && !a.GoesOn(fs[0])
    requires (forall m :: 1 <= m < n ==> Bulk(fs, m) < |frame|) && |frame| <= Bulk(fs, n) < U32
    ensures Out(a, fs, n).Some?
    ensures Out(a, fs, n) == Some(frame) <==> forall i :: 0 <= i < |frame| ==> i in Covered(fs, n) || frame[i] == 0
  {
    PartsAssemble(a, fs, frame, seqno, n);
    var b := Filled(fs, frame, n);
    if b == frame {
      forall i | 0 <= i < |frame| ensures i in Covered(fs, n) || frame[i] == 0 { assert b[i] == frame[i]; }
    }
  }

  ghost predicate Apart(fs: seq<Fragment>, n: nat)
    requires n <= |fs|
  {
    forall j, k :: 0 <= j < k < n ==> Disjoint(fs[j], fs[k])
  }

  lemma {:induction false} ApartCovers(fs: seq<Fragment>, n: nat)
    requires n <= |fs| && Apart(fs, n)
    ensures |Covered(fs, n)| == Bulk(fs, n)
  {
    if n > 0 {
      var m := n - 1;
      ApartCovers(fs, m);
      ApartFrom(fs, n, m);
      CoveredAdds(fs, m);
    }
  }

  lemma {:induction false} ApartFrom(fs: seq<Fragment>, n: nat, m: nat)
    requires m < n <= |fs| && Apart(fs, n)
    ensures forall k :: 0 <= k < m ==> Disjoint(fs[k], fs[m])
  {
  }

  lemma {:induction false} CoveredWithinFrame(fs: seq<Fragment>, frame: seq<byte>, seqno: nat, n: nat)
    requires Parts(fs, frame, seqno) && n <= |fs|
    ensures Covered(fs, n) <= Span(0, |frame|)
  {
    if n > 0 {
      CoveredWithinFrame(fs, frame, seqno, n - 1);
      assert PartOf(fs[n - 1], frame, seqno);
    }
  }

  /** A sender that overlaps no two of the fragments up to the frame's size is
      received right, and at the very last of them. */
  lemma {:induction false} ApartAssembles(a: Asm, fs: seq<Fragment>, frame: seq<byte>, seqno: nat, n: nat)
    requires Parts(fs, frame, seqno) && 1 <= n <= |fs| && !a.GoesOn(fs[0]) && Apart(fs, n)
    requires (forall m :: 1 <= m < n ==> Bulk(fs, m) < |frame|) && |frame| <= Bulk(fs, n)
    ensures Bulk(fs, n) == |frame| && Out(a, fs, n) == Some(frame) && Fed(a, fs, n).ts == fs[0].ts
  {
    assert PartOf(fs[n - 1], frame, seqno);
    ApartCovers(fs, n);
    CoveredWithinFrame(fs, frame, seqno, n);
    SpanSize(0, |frame|);
    SubsetSize(Covered(fs, n), Span(0, |frame|));
    PartsAssemble(a, fs, frame, seqno, n);
    assert Filled(fs, frame, n) == frame;
  }

  /** Whatever the order of its fragments, a frame cut up comes out whole, with
      the last of them and not before. */
  lemma {:induction false} AnyOrderAssembles(a: Asm, fs: seq<Fragment>, frame: seq<byte>, seqno: nat, n: nat)
    requires CutUp(fs, frame, seqno) && 1 <= n <= |fs| && !a.GoesOn(fs[0])
    ensures Out(a, fs, n) == if n < |fs| then None else Some(frame)
    ensures Fed(a, fs, n).ts == fs[0].ts
  {
    forall m | 0 <= m <= |fs| ensures Bulk(fs, m) == |Covered(fs, m)| <= |frame| {
      ApartCovers(fs, m);
      CoveredWithin(fs, m, |frame|);
      OnlyTheLastCompletes(fs, frame, seqno, m);
    }
    forall m | 1 <= m < n ensures Bulk(fs, m) < |frame| { OnlyTheLastCompletes(fs, frame, seqno, m); }
    OnlyTheLastCompletes(fs, frame, seqno, n);
    if n == |fs| { ApartAssembles(a, fs, frame, seqno, n); } else { PartsAssemble(a, fs, frame, seqno, n); }
  }

  /** Bytes are counted, not positions: a fragment received twice can end a
      frame early, with a hole. */
  lemma {:induction false} DuplicateLeavesAHole(a: Asm)
    requires !a.started
    ensures var f, frame := Fragment(0, 1, 0, 2, [7]), [7, 8];
      && PartOf(f, frame, 1)
      && Out(a, [f, f], 2).Some? && Out(a, [f, f], 2).value != frame
  {
    var f, frame := Fragment(0, 1, 0, 2, [7]), [7, 8];
    var fs := [f, f];
    assert frame[0..1] == [7];
    assert PartOf(f, frame, 1) && Parts(fs, frame, 1);
    assert Bulk(fs, 1) == 1 && Bulk(fs, 2) == 2;
    FrameIsRightExactly(a, fs, frame, 1, 2);
    assert 1 !in Covered(fs, 1) && 1 !in Covered(fs, 2) && frame[1] == 8;
  }
}
