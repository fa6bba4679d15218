/** Media samples (internal/camera/sample.go) and the recording's prebuffer
    (internal/hksv/prebuffer.go). */

module Samples {
  import opened Bytes

  /** Video: one NAL unit. Audio: PCM. pts counts 90 kHz ticks. */
  datatype Sample = Sample(isVideo: bool, pts: int, data: seq<byte>)

  const IDR := 5
  const SPS := 7
  const PPS := 8
  const AUD := 9

  function NalType(nal: seq<byte>): nat { if nal == [] then 0 else nal[0] % 32 }

  /** Whether a GOP can open on s: an IDR, or the SPS sent before it. */
  predicate Opens(s: Sample) {
    s.isVideo && (NalType(s.data) == SPS || NalType(s.data) == IDR)
  }

  /** The bytes held by some samples. */
  function Total(ss: seq<Sample>): nat {
    if ss == [] then 0 else Total(ss[..|ss| - 1]) + |ss[|ss| - 1].data|
  }

  lemma {:induction false} TotalSplits(ss: seq<Sample>, n: nat)
    requires n <= |ss|
    ensures Total(ss) == Total(ss[..n]) + Total(ss[n..])
  {
    var m := |ss| - 1;
    if n == |ss| {
      assert ss[..n] == ss;
    } else {
      TotalSplits(ss[..m], n);
      assert ss[..m][..n] == ss[..n] && ss[..m][n..] == ss[n..][..m - n];
    }
  }

  /** Video never goes back in time. */
  ghost predicate InOrder(h: seq<Sample>) {
    forall i, j :: 0 <= i < j < |h| && h[i].isVideo && h[j].isVideo ==> h[i].pts <= h[j].pts
  }
}

module PrebufferModel {
  import opened Samples

  const Cap := 0x80_0000

  /** Groups of pictures, oldest first, each opened by its first sample. */
  datatype Gops = NoGop | Gop(head: Sample, body: seq<Sample>, later: Gops)
  {
    function Flat(): seq<Sample> {
      if NoGop? then [] else [head] + body + later.Flat()
    }

    function Weight(): nat { Total(Flat()) }

    /** What opened the newest GOP. */
    function Newest(): Sample
      requires Gop?
    {
      if later.NoGop? then head else later.Newest()
    }

    predicate GopStart(s: Sample) {
      Opens(s) && (NoGop? || Newest().pts != s.pts)
    }

    function AddGop(s: Sample): Gops {
      if NoGop? then Gop(s, [], NoGop) else this.(later := later.AddGop(s))
    }

    function Extend(s: Sample): Gops {
      if NoGop? then NoGop
      else if later.NoGop? then this.(body := body + [s])
      else this.(later := later.Extend(s))
    }

    /** With one more sample; what comes before any GOP is left out. */
    function Grow(s: Sample): Gops {
      if GopStart(s) then AddGop(s) else Extend(s)
    }

    /** Without the GOPs that the next one makes needless, and within the cap. */
    function Trim(keep: int, last: int): Gops {
      if NoGop? then NoGop
      else if later.Gop? && (last - later.head.pts >= keep || Weight() > Cap) then later.Trim(keep, last)
      else if Weight() > Cap then NoGop
      else this
    }

    /** Whether some GOP here goes back at least keep before last. */
    predicate Reaches(keep: int, last: int) {
      Gop? && (last - head.pts >= keep || later.Reaches(keep, last))
    }

    /** The shortest run of newest GOPs going back keep; all of them if none does. */
    function Shortest(keep: int, last: int): Gops {
      if Gop? && later.Reaches(keep, last) then later.Shortest(keep, last) else this
    }

    /** In the order of their PTS, none after last. */
    predicate Ordered(last: int) {
      Gop? ==> head.pts <= last && later.Ordered(last) && (later.Gop? ==> head.pts <= later.head.pts)
    }

    ghost predicate Whole() {
      Gop? ==> Opens(head) && later.Whole()
    }
  }

  /** The GOPs held and the PTS of the newest video sample. */
  datatype Buffer = Buffer(gops: Gops, last: int)

  const Empty := Buffer(NoGop, 0)

  function Add(keep: int, b: Buffer, s: Sample): Buffer {
    var gs := b.gops.Grow(s);
    if gs.NoGop? then b
    else
      var last := if s.isVideo then s.pts else b.last;
      var kept := gs.Trim(keep, last);
      if kept.NoGop? then Empty else Buffer(kept, last)
  }

  /** The buffer after the first n samples of h. */
  function Run(keep: int, h: seq<Sample>, n: nat): (b: Buffer)
    requires n <= |h|
  {
    if n == 0 then Empty else Add(keep, Run(keep, h, n - 1), h[n - 1])
  }

  /** r is the newest of the first n samples of h. */
  ghost predicate Recent(r: seq<Sample>, h: seq<Sample>, n: nat) {
    |r| <= n <= |h| && r == h[n - |r|..n]
  }

  lemma {:induction false} RecentGrows(r: seq<Sample>, h: seq<Sample>, n: nat)
    requires n < |h| && Recent(r, h, n)
    ensures Recent(r + [h[n]], h, n + 1)
  {
  }

  lemma {:induction false} RecentTail(p: seq<Sample>, r: seq<Sample>, h: seq<Sample>, n: nat)
    requires Recent(p + r, h, n)
    ensures Recent(r, h, n)
  {
  }

  lemma {:induction false} GrowFlat(gs: Gops, s: Sample)
    ensures gs.AddGop(s).Flat() == gs.Flat() + [s]
    ensures gs.Gop? ==> gs.Extend(s).Flat() == gs.Flat() + [s]
    ensures gs.Whole() && Opens(s) ==> gs.AddGop(s).Whole()
    ensures gs.Whole() ==> gs.Extend(s).Whole()
  {
    if gs.Gop? {
      GrowFlat(gs.later, s);
      assert [gs.head] + gs.body + (gs.later.Flat() + [s]) == [gs.head] + gs.body + gs.later.Flat() + [s];
      if gs.later.NoGop? { assert [gs.head] + (gs.body + [s]) + [] == [gs.head] + gs.body + [] + [s]; }
    }
  }

  /** What holds of a buffer however long it has run: it weighs at most the
      cap, holds the newest samples of h, whole GOPs only, and none that the
      next one makes needless. */
  ghost predicate Sound(keep: int, h: seq<Sample>, n: nat, gs: Gops, last: int) {
    && gs.Whole()
    && gs.Weight() <= Cap
    && (gs.Gop? && gs.later.Gop? ==> last - gs.later.head.pts < keep)
    && Recent(gs.Flat(), h, n)
  }

  lemma {:induction false} TrimSound(keep: int, gs: Gops, last: int, h: seq<Sample>, n: nat)
    requires gs.Whole() && Recent(gs.Flat(), h, n)
    ensures Sound(keep, h, n, gs.Trim(keep, last), last)
  {
    if gs.Gop? && gs.later.Gop? && (last - gs.later.head.pts >= keep || gs.Weight() > Cap) {
      RecentTail([gs.head] + gs.body, gs.later.Flat(), h, n);
      TrimSound(keep, gs.later, last, h, n);
    }
  }

  lemma {:induction false} AddSound(keep: int, h: seq<Sample>, n: nat, b: Buffer)
    requires n < |h| && Sound(keep, h, n, b.gops, b.last)
    ensures var r := Add(keep, b, h[n]); Sound(keep, h, n + 1, r.gops, r.last)
  {
    var s := h[n];
    GrowSound(b.gops, h, n);
    var gs := b.gops.Grow(s);
    if gs.Gop? { TrimSound(keep, gs, if s.isVideo then s.pts else b.last, h, n + 1); }
  }

  lemma {:induction false} GrowSound(gs: Gops, h: seq<Sample>, n: nat)
    requires n < |h| && gs.Whole() && Recent(gs.Flat(), h, n)
    ensures gs.Grow(h[n]).Whole()
    ensures gs.Grow(h[n]).Gop? ==> Recent(gs.Grow(h[n]).Flat(), h, n + 1)
  {
    GrowFlat(gs, h[n]);
    RecentGrows(gs.Flat(), h, n);
  }

  /** On every run, whatever the clock and the stream do. */
  lemma {:induction false} RunSound(keep: int, h: seq<Sample>, n: nat)
    requires n <= |h|
    ensures var b := Run(keep, h, n); Sound(keep, h, n, b.gops, b.last)
  {
    if n > 0 {
      RunSound(keep, h, n - 1);
      AddSound(keep, h, n - 1, Run(keep, h, n - 1));
    }
  }

  /** The GOPs of the first n samples of h, none forgotten. */
  function GopsOf(h: seq<Sample>, n: nat): Gops
    requires n <= |h|
  {
    if n == 0 then NoGop else GopsOf(h, n - 1).Grow(h[n - 1])
  }

  /** The PTS of the newest video sample. */
  function NewestPts(h: seq<Sample>, n: nat): int
    requires n <= |h|
  {
    if n == 0 then 0 else if h[n - 1].isVideo then h[n - 1].pts else NewestPts(h, n - 1)
  }

  /** What a recording should start with. */
  function Ideal(keep: int, h: seq<Sample>, n: nat): Gops
    requires n <= |h|
  {
    GopsOf(h, n).Shortest(keep, NewestPts(h, n))
  }

  ghost predicate Seen(h: seq<Sample>, n: nat, pts: int)
    requires n <= |h|
  {
    exists j :: 0 <= j < n && h[j].isVideo && h[j].pts == pts
  }

  lemma {:induction false} GrowOrdered(gs: Gops, s: Sample, last: int, last': int)
    requires gs.Ordered(last) && last <= last'
    ensures last' == s.pts ==> gs.AddGop(s).Ordered(last')
    ensures gs.Extend(s).Ordered(last')
  {
    if gs.Gop? { GrowOrdered(gs.later, s, last, last'); }
  }

  lemma {:induction false} GopsOrdered(h: seq<Sample>, n: nat)
    requires n <= |h| && InOrder(h)
    ensures GopsOf(h, n).Ordered(NewestPts(h, n)) && (GopsOf(h, n).Gop? ==> Seen(h, n, NewestPts(h, n)))
    ensures n > 0 && GopsOf(h, n - 1).Gop? ==> NewestPts(h, n - 1) <= NewestPts(h, n)
  {
    if n == 0 { return; }
    GopsOrdered(h, n - 1);
    if GopsOf(h, n - 1).Gop? {
      GrowOrdered(GopsOf(h, n - 1), h[n - 1], NewestPts(h, n - 1), NewestPts(h, n));
    }
    if h[n - 1].isVideo { assert h[n - 1].pts == NewestPts(h, n); }
  }

  /** In order, the second GOP goes back furthest of those after the first. */
  lemma {:induction false} SecondReaches(gs: Gops, keep: int, last: int)
    requires gs.Ordered(last) && gs.Reaches(keep, last)
    ensures last - gs.head.pts >= keep
  {
    if last - gs.head.pts < keep { SecondReaches(gs.later, keep, last); }
  }

  /** Trimming stops at the shortest run when that run fits. */
  lemma {:induction false} TrimStops(keep: int, gs: Gops, last: int)
    requires gs.Ordered(last) && gs.Shortest(keep, last).Weight() <= Cap
    ensures gs.Trim(keep, last) == gs.Shortest(keep, last)
  {
    if gs.Gop? && gs.later.Reaches(keep, last) {
      SecondReaches(gs.later, keep, last);
      TrimStops(keep, gs.later, last);
    }
  }

  /** A GOP that reached back still does once more samples came. */
  lemma {:induction false} GrowReaches(gs: Gops, s: Sample, keep: int, last: int, last': int)
    requires gs.Reaches(keep, last) && last <= last'
    ensures gs.Grow(s).Gop? && gs.Grow(s).Reaches(keep, last')
  {
    if gs.later.Reaches(keep, last) { GrowReaches(gs.later, s, keep, last, last'); }
  }

  /** Growing the shortest run, then shortening: as if it had all been kept. */
  lemma {:induction false} ShortestGrows(gs: Gops, s: Sample, keep: int, last: int, last': int)
    requires last <= last'
    ensures gs.Shortest(keep, last).Grow(s).Shortest(keep, last') == gs.Grow(s).Shortest(keep, last')
  {
    if gs.Gop? && gs.later.Reaches(keep, last) {
      GrowReaches(gs.later, s, keep, last, last');
      ShortestGrows(gs.later, s, keep, last, last');
    }
  }

  lemma {:induction false} ShortestOrdered(gs: Gops, keep: int, last: int)
    requires gs.Ordered(last)
    ensures gs.Shortest(keep, last).Ordered(last)
    ensures gs.Gop? <==> gs.Shortest(keep, last).Gop?
  {
    if gs.Gop? && gs.later.Reaches(keep, last) { ShortestOrdered(gs.later, keep, last); }
  }

  function IdealBuffer(keep: int, h: seq<Sample>, n: nat): Buffer
    requires n <= |h|
  {
    Buffer(Ideal(keep, h, n), if GopsOf(h, n).NoGop? then 0 else NewestPts(h, n))
  }

  lemma {:induction false} AddTracks(keep: int, h: seq<Sample>, n: nat)
    requires 0 < n <= |h| && InOrder(h) && Ideal(keep, h, n).Weight() <= Cap
    ensures Add(keep, IdealBuffer(keep, h, n - 1), h[n - 1]) == IdealBuffer(keep, h, n)
  {
    var gs, s := GopsOf(h, n - 1), h[n - 1];
    var last, last' := NewestPts(h, n - 1), NewestPts(h, n);
    GopsOrdered(h, n - 1);
    GopsOrdered(h, n);
    ShortestOrdered(gs, keep, last);
    if gs.Gop? {
      var kept := gs.Shortest(keep, last);
      ShortestGrows(gs, s, keep, last, last');
      GrowOrdered(kept, s, last, last');
      TrimStops(keep, kept.Grow(s), last');
      GrowFlat(kept, s);
      ShortestOrdered(gs.Grow(s), keep, last');
    } else if gs.Grow(s).Gop? {
      TrimStops(keep, gs.Grow(s), last');
    }
  }

  lemma {:induction false} RunTracks(keep: int, h: seq<Sample>, n: nat)
    requires n <= |h| && InOrder(h)
    requires forall m :: 0 <= m <= n ==> Ideal(keep, h, m).Weight() <= Cap
    ensures Run(keep, h, n) == IdealBuffer(keep, h, n)
  {
    if n > 0 {
      RunTracks(keep, h, n - 1);
      AddTracks(keep, h, n);
    }
  }

  /** Video in order: the buffer is the ideal recording start throughout a
      run if and only if that start always fits the cap. */
  lemma {:induction false} IdealExactlyWithinCap(keep: int, h: seq<Sample>)
    requires InOrder(h)
    ensures (forall n :: 0 <= n <= |h| ==> Run(keep, h, n).gops == Ideal(keep, h, n))
       <==> (forall n :: 0 <= n <= |h| ==> Ideal(keep, h, n).Weight() <= Cap)
  {
    if forall n :: 0 <= n <= |h| ==> Ideal(keep, h, n).Weight() <= Cap {
      forall n | 0 <= n <= |h| ensures Run(keep, h, n).gops == Ideal(keep, h, n) {
        RunTracks(keep, h, n);
      }
    } else {
      var n :| 0 <= n <= |h| && Ideal(keep, h, n).Weight() > Cap;
      RunSound(keep, h, n);
    }
  }

  /** The GOPs hold every sample from the first that can open one on. */
  lemma {:induction false} GopsAreTheHistory(h: seq<Sample>, k: nat, n: nat)
    requires k < n <= |h| && Opens(h[k]) && (forall i :: 0 <= i < k ==> !Opens(h[i]))
    ensures GopsOf(h, n).Gop? && GopsOf(h, n).Flat() == h[k..n]
  {
    if k == n - 1 {
      NoneYet(h, k);
    } else {
      GopsAreTheHistory(h, k, n - 1);
    }
    GrowFlat(GopsOf(h, n - 1), h[n - 1]);
  }

  lemma {:induction false} NoneYet(h: seq<Sample>, n: nat)
    requires n <= |h| && forall i :: 0 <= i < n ==> !Opens(h[i])
    ensures GopsOf(h, n).NoGop?
  {
    if n > 0 { NoneYet(h, n - 1); }
  }
}

module PrebufferClass {
  import opened Samples
  import opened PrebufferModel

  /** Where each GOP begins, when the first begins at from. */
  function Offsets(gs: Gops, from: int): seq<int> {
    if gs.NoGop? then [] else [from] + Offsets(gs.later, from + 1 + |gs.body|)
  }

  lemma {:induction false} OffsetsGrow(gs: Gops, s: Sample, from: int)
    ensures Offsets(gs.AddGop(s), from) == Offsets(gs, from) + [from + |gs.Flat()|]
    ensures Offsets(gs.Extend(s), from) == Offsets(gs, from)
  {
    if gs.Gop? {
      OffsetsGrow(gs.later, s, from + 1 + |gs.body|);
    }
  }

  /** One start a GOP, going up from 0, each where a GOP opens. */
  lemma {:induction false} OffsetsGoUp(gs: Gops, from: int, i: nat)
    requires i < |Offsets(gs, from)|
    ensures from <= Offsets(gs, from)[i] < from + |gs.Flat()|
    ensures i == 0 ==> Offsets(gs, from)[i] == from
    ensures i > 0 ==> Offsets(gs, from)[i - 1] < Offsets(gs, from)[i]
    ensures gs.Whole() ==> Opens(gs.Flat()[Offsets(gs, from)[i] - from])
  {
    var next := from + 1 + |gs.body|;
    if i > 0 {
      OffsetsGoUp(gs.later, next, i - 1);
      var p := [gs.head] + gs.body;
      assert (p + gs.later.Flat())[|p| + (Offsets(gs.later, next)[i - 1] - next)]
          == gs.later.Flat()[Offsets(gs.later, next)[i - 1] - next];
    }
  }

  lemma {:induction false} LastOffset(gs: Gops, from: int)
    requires gs.Gop?
    ensures var o := Offsets(gs, from);
      && o != [] && from <= o[|o| - 1] < from + |gs.Flat()|
      && gs.Flat()[o[|o| - 1] - from] == gs.Newest()
  {
    if gs.later.Gop? {
      var next := from + 1 + |gs.body|;
      LastOffset(gs.later, next);
      var o := Offsets(gs.later, next);
      assert Offsets(gs, from)[|o|] == o[|o| - 1];
      var p := [gs.head] + gs.body;
      assert (p + gs.later.Flat())[|p| + (o[|o| - 1] - next)] == gs.later.Flat()[o[|o| - 1] - next];
    }
  }

  lemma {:induction false} SecondStart(gs: Gops)
    ensures |Offsets(gs, 0)| >= 2 <==> gs.Gop? && gs.later.Gop?
    ensures gs.Gop? && gs.later.Gop? ==>
      var n := 1 + |gs.body|;
      && Offsets(gs, 0)[1] == n < |gs.Flat()|
      && gs.Flat()[n] == gs.later.head
      && gs.Flat()[n..] == gs.later.Flat()
      && gs.Weight() == Total(gs.Flat()[..n]) + gs.later.Weight()
  {
    if gs.Gop? {
      var p := [gs.head] + gs.body;
      assert gs.Flat() == p + gs.later.Flat();
      assert Offsets(gs, 0) == [0] + Offsets(gs.later, |p|);
      assert gs.later.Gop? ==> gs.later.Flat()[0] == gs.later.head;
      TotalSplits(gs.Flat(), |p|);
    }
  }

  lemma {:induction false} OffsetsShift(gs: Gops, from: int, n: int)
    ensures |Offsets(gs, from)| == |Offsets(gs, from - n)|
    ensures forall i :: 0 <= i < |Offsets(gs, from)| ==> Offsets(gs, from - n)[i] == Offsets(gs, from)[i] - n
  {
    if gs.Gop? { OffsetsShift(gs.later, from + 1 + |gs.body|, n); }
  }

  class Prebuffer {
    const keep: int
    var samples: seq<Sample>
    var starts: seq<int>
    var size: int
    var last: int
    /** The samples by GOP. */
    ghost var gops: Gops

    constructor (keep: int)
      ensures this.keep == keep && Valid() && View() == Empty
    {
      this.keep := keep;
      samples, starts, size, last, gops := [], [], 0, 0, NoGop;
    }

    /** samples are the GOPs end to end, starts where each begins, size their weight. */
    ghost predicate Valid()
      reads this
    {
      samples == gops.Flat() && starts == Offsets(gops, 0) && size == gops.Weight()
    }

    ghost function View(): Buffer
      reads this
    {
      Buffer(gops, last)
    }

    method IsGopStart(s: Sample) returns (r: bool)
      requires Valid()
      ensures r == gops.GopStart(s)
    {
      if !s.isVideo { return false; }
      var t := NalType(s.data);
      if t != SPS && t != IDR { return false; }
      if |starts| == 0 { return true; }
      LastOffset(gops, 0);
      r := samples[starts[|starts| - 1]].pts != s.pts;
    }

    method Add(s: Sample)
      requires Valid()
      modifies this
      ensures Valid() && View() == PrebufferModel.Add(keep, old(View()), s)
    {
      GrowFlat(gops, s);
      OffsetsGrow(gops, s, 0);
      var opens := IsGopStart(s);
      if opens { starts := starts + [|samples|]; }
      if |starts| == 0 { return; }
      samples := samples + [s];
      size := size + |s.data|;
      if s.isVideo { last := s.pts; }
      gops := gops.Grow(s);
      Trim();
    }

    method Trim()
      requires Valid()
      modifies this
      ensures Valid() && gops == old(gops).Trim(keep, old(last))
      ensures last == if gops.NoGop? && old(gops).Gop? then 0 else old(last)
    {
      while |starts| >= 2
        invariant Valid() && last == old(last) && (gops.NoGop? ==> gops == old(gops))
        invariant gops.Trim(keep, last) == old(gops).Trim(keep, old(last))
        decreases |starts|
      {
        SecondStart(gops);
        var second := samples[starts[1]].pts;
        if last - second < keep && size <= Cap { return; }
        Drop(starts[1]);
      }
      SecondStart(gops);
      if size > Cap { Reset(); }
    }

    /** Drops the first n samples, the oldest GOP. */
    method Drop(n: nat)
      requires Valid() && |starts| >= 2 && n == starts[1]
      modifies this
      ensures Valid() && gops == old(gops).later && last == old(last) && |starts| == |old(starts)| - 1
    {
      SecondStart(gops);
      var i := 0;
      while i < n
        invariant 0 <= i <= n
        invariant size == old(size) - Total(samples[..i])
        modifies this`size
      {
        assert samples[..i + 1][..i] == samples[..i];
        size := size - |samples[i].data|;
        i := i + 1;
      }
      samples := samples[n..];
      i := 0;
      while i < |starts|
        invariant 0 <= i <= |starts| == |old(starts)|
        invariant forall j :: 0 <= j < |starts| ==> starts[j] == if j < i then old(starts)[j] - n else old(starts)[j]
        modifies this`starts
      {
        starts := starts[i := starts[i] - n];
        i := i + 1;
      }
      starts := starts[1..];
      OffsetsShift(gops.later, n, n);
      assert old(starts) == [0] + Offsets(gops.later, n);
      assert starts == Offsets(gops.later, 0);
      gops := gops.later;
    }

    method Reset()
      modifies this
      ensures Valid() && View() == Empty
    {
      samples, starts, size, last, gops := [], [], 0, 0, NoGop;
    }

    /** What a recording starts with; the buffer stays as it is. */
    method Snapshot() returns (r: seq<Sample>)
      requires Valid()
      ensures r == gops.Flat()
    {
      r := samples;
    }
  }
}
