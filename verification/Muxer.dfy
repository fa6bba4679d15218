/** The recording's fragmented MP4 (internal/hksv/fmp4.go). Segments are
    records here: their bytes, and the AAC encoder, are not part of this model. */

module MuxerModel {
  import opened Wrappers
  import opened Bytes
  import opened Samples

  const DefaultFrame := 3000
  const AacFrame := 1024

  /** One access unit: what is shown at one PTS. */
  datatype Unit = Unit(pts: int, nals: seq<seq<byte>>, idr: bool)

  /** One encoded audio unit, its PTS in the video's clock. */
  datatype Coded = Coded(pts: int, au: seq<byte>)

  datatype VideoSample = VideoSample(duration: nat, sync: bool, nals: seq<seq<byte>>)

  /** Units of AacFrame ticks each, one after the other from base. */
  datatype AudioTrack = AudioTrack(base: int, units: seq<seq<byte>>)

  datatype Segment =
    | Init(sps: seq<byte>, pps: seq<byte>, withAudio: bool)
    | Fragment(number: nat, base: int, samples: seq<VideoSample>, audio: Option<AudioTrack>)
  {
    /** When a player shows sample i: the base time and the durations before it. */
    function At(i: nat): int
      requires Fragment? && i <= |samples|
    {
      if i == 0 then base else At(i - 1) + samples[i - 1].duration
    }

    function End(): int
      requires Fragment?
    {
      At(|samples|)
    }
  }

  /** From unit i to the next one, or to end. */
  function Gap(frag: seq<Unit>, end: int, i: nat): int
    requires i < |frag|
  {
    (if i + 1 < |frag| then frag[i + 1].pts else end) - frag[i].pts
  }

  function Duration(frag: seq<Unit>, end: int, i: nat): nat
    requires i < |frag|
  {
    var d := Gap(frag, end, i);
    if d <= 0 then DefaultFrame else d % U32
  }

  function VideoTrack(frag: seq<Unit>, end: int): seq<VideoSample> {
    seq(|frag|, i requires 0 <= i < |frag| => VideoSample(Duration(frag, end, i), frag[i].idr, frag[i].nals))
  }

  /** How many units of a, from i on, come before t. */
  function Before(a: seq<Coded>, t: int, i: nat): (r: nat)
    requires i <= |a|
    ensures i <= r <= |a|
    ensures forall j :: i <= j < r ==> a[j].pts < t
    ensures r < |a| ==> a[r].pts >= t
    decreases |a| - i
  {
    if i < |a| && a[i].pts < t then Before(a, t, i + 1) else i
  }

  function Payloads(a: seq<Coded>): seq<seq<byte>> {
    seq(|a|, i requires 0 <= i < |a| => a[i].au)
  }

  /** The encoded audio waiting for its fragment, and where the audio
      timeline is: negative before the first unit. */
  datatype Sound = Sound(audio: seq<Coded>, pos: int)
  {
    /** How many units a cut at end takes, and how many of them it drops:
        those from before the recording's start, as long as none went out. */
    function Taken(end: int): (n: nat)
      ensures n <= |audio|
    {
      Before(audio, end, 0)
    }

    function Dropped(start: int, end: int): (n: nat)
      ensures n <= Taken(end)
      ensures forall i :: 0 <= i < n ==> audio[i].pts < start
    {
      var n := Before(audio, start, 0);
      if pos >= 0 then 0 else if n < Taken(end) then n else Taken(end)
    }

    lemma {:induction false} Counted(start: int, end: int, n: nat, k: nat)
      requires k <= n <= |audio|
      requires forall j :: 0 <= j < n ==> audio[j].pts < end
      requires n < |audio| ==> audio[n].pts >= end
      requires pos < 0 ==> forall j :: 0 <= j < k ==> audio[j].pts < start
      requires pos < 0 && k < n ==> audio[k].pts >= start
      requires pos >= 0 ==> k == 0
      ensures Taken(end) == n && Dropped(start, end) == k
    {
    }

    function Base(start: int, end: int): int {
      if pos < 0 && Dropped(start, end) < Taken(end)
      then (audio[Dropped(start, end)].pts - start) * 16000 / 90000 else pos
    }

    function Track(start: int, end: int): Option<AudioTrack> {
      if Dropped(start, end) == Taken(end) then None
      else Some(AudioTrack(Base(start, end), Payloads(audio[Dropped(start, end)..Taken(end)])))
    }

    function Take(start: int, end: int): Sound {
      Sound(audio[Taken(end)..], Base(start, end) + AacFrame * (Taken(end) - Dropped(start, end)))
    }
  }

  /** A NAL more in the current access unit; parameter sets and delimiters stay out. */
  function Joined(u: Unit, nal: seq<byte>): Unit {
    var t := NalType(nal);
    if t == SPS || t == PPS || t == AUD then u
    else u.(nals := u.nals + [nal], idr := u.idr || t == IDR)
  }

  datatype Mux = Mux(fragment: int, withAudio: bool,
                     sps: Option<seq<byte>>, pps: Option<seq<byte>>,
                     cur: Option<Unit>, frag: seq<Unit>, sound: Sound,
                     start: int, started: bool, inited: bool, number: nat)
  {
    predicate Ready() { sps.Some? && pps.Some? }

    /** A started muxer knows its parameter sets, and only such a one keeps units. */
    predicate Valid() {
      && (started ==> Ready()) && (frag != [] ==> started)
      && (sps.Some? ==> NalType(sps.value) == SPS) && (pps.Some? ==> NalType(pps.value) == PPS)
    }

    function AddNal(nal: seq<byte>): (m: Mux)
      requires cur.Some?
    {
      var t := NalType(nal);
      this.(cur := Some(Joined(cur.value, nal)),
            sps := if t == SPS then Some(nal) else sps,
            pps := if t == PPS then Some(nal) else pps)
    }

    function CutSegments(end: int): seq<Segment>
      requires frag != [] && Ready()
    {
      (if inited then [] else [Init(sps.value, pps.value, withAudio)])
      + [Fragment((number + 1) % U32, frag[0].pts - start, VideoTrack(frag, end),
                  if withAudio then sound.Track(start, end) else None)]
    }

    function Cut(end: int): Mux {
      this.(inited := true, number := (number + 1) % U32, frag := [],
            sound := if withAudio then sound.Take(start, end) else sound)
    }

    /** Whether u is left out: nothing to show, or a start without an IDR
        or the parameter sets. */
    predicate Skips(u: Unit) {
      u.nals == [] || (!started && !(u.idr && Ready()))
    }

    predicate Cuts(u: Unit) {
      u.idr && frag != [] && u.pts - frag[0].pts >= fragment
    }

    function Push(u: Unit): (m: Mux)
      ensures Valid() ==> m.Valid()
    {
      if Skips(u) then this
      else
        var m := if started then this else this.(started := true, start := u.pts);
        var m := if m.Cuts(u) then m.Cut(u.pts) else m;
        m.(frag := m.frag + [u])
    }

    function PushSegments(u: Unit): seq<Segment>
      requires Valid()
    {
      var m := if started then this else this.(started := true, start := u.pts);
      if !Skips(u) && m.Cuts(u) then m.CutSegments(u.pts) else []
    }

    /** Whether s goes on with the current access unit. */
    predicate GoesOn(s: Sample) { cur.Some? && cur.value.pts == s.pts }

    /** coded is what the encoder completes with s, when s is sound. */
    function Write(s: Sample, coded: seq<Coded>): (m: Mux)
      ensures Valid() ==> m.Valid()
    {
      if !s.isVideo then (if withAudio then this.(sound := sound.(audio := sound.audio + coded)) else this)
      else if GoesOn(s) then AddNal(s.data)
      else
        var m := if cur.Some? then Push(cur.value) else this;
        m.(cur := Some(Unit(s.pts, [], false))).AddNal(s.data)
    }

    function WriteSegments(s: Sample): seq<Segment>
      requires Valid()
    {
      if s.isVideo && cur.Some? && !GoesOn(s) then PushSegments(cur.value) else []
    }

    /** The last unit's duration, guessed from the one before. */
    function LastDuration(): int {
      var n := |frag|;
      if n >= 2 && frag[n - 1].pts > frag[n - 2].pts then frag[n - 1].pts - frag[n - 2].pts else DefaultFrame
    }

    /** With the current access unit filed. */
    function Filed(): Mux {
      if cur.Some? then Push(cur.value).(cur := None) else this
    }

    function FlushEnd(): int
      requires frag != []
    {
      frag[|frag| - 1].pts + LastDuration()
    }

    function Ended(): Mux {
      if frag == [] then this else Cut(FlushEnd())
    }

    function EndSegments(): seq<Segment>
      requires Valid()
    {
      if frag == [] then [] else CutSegments(FlushEnd())
    }

    function Flush(): Mux { Filed().Ended() }

    function FlushSegments(): seq<Segment>
      requires Valid()
    {
      (if cur.Some? then PushSegments(cur.value) else []) + Filed().EndSegments()
    }
  }

  function New(fragmentMs: int, withAudio: bool): Mux {
    var ms := if fragmentMs <= 0 then 4000 else fragmentMs;
    Mux(ms * 90000 / 1000, withAudio, None, None, None, [], Sound([], -1), 0, false, false, 0)
  }
}

module MuxerClass {
  import opened Wrappers
  import opened Bytes
  import opened Samples
  import opened MuxerModel

  class Muxer {
    const fragment: int
    const withAudio: bool
    var sps: Option<seq<byte>>
    var pps: Option<seq<byte>>
    var cur: Option<Unit>
    var frag: seq<Unit>
    var audio: seq<Coded>
    var start: int
    var started: bool
    var inited: bool
    var number: nat
    var audioPos: int

    constructor (fragmentMs: int, withAudio: bool)
      ensures View() == New(fragmentMs, withAudio)
    {
      this.fragment := (if fragmentMs <= 0 then 4000 else fragmentMs) * 90000 / 1000;
      this.withAudio := withAudio;
      sps, pps, cur, frag, audio := None, None, None, [], [];
      start, started, inited, number, audioPos := 0, false, false, 0, -1;
    }

    function View(): Mux
      reads this
    {
      Mux(fragment, withAudio, sps, pps, cur, frag, Sound(audio, audioPos), start, started, inited, number)
    }

    /** Takes the next sample; returns the segments it completed. */
    method Write(s: Sample, coded: seq<Coded>) returns (r: seq<Segment>)
      requires View().Valid()
      modifies this
      ensures View() == old(View()).Write(s, coded) && r == old(View()).WriteSegments(s)
    {
      r := [];
      if !s.isVideo {
        if withAudio { audio := audio + coded; }
        return;
      }
      if cur.Some? && cur.value.pts == s.pts {
        AddNal(s.data);
        return;
      }
      if cur.Some? { r := Push(cur.value); }
      cur := Some(Unit(s.pts, [], false));
      AddNal(s.data);
    }

    method AddNal(nal: seq<byte>)
      requires cur.Some?
      modifies this
      ensures View() == old(View()).AddNal(nal)
    {
      var t := NalType(nal);
      if t == SPS {
        sps := Some(nal);
      } else if t == PPS {
        pps := Some(nal);
      } else if t != AUD {
        cur := Some(cur.value.(nals := cur.value.nals + [nal], idr := cur.value.idr || t == IDR));
      }
    }

    /** Files a complete access unit; an IDR closes a fragment long enough. */
    method Push(u: Unit) returns (r: seq<Segment>)
      requires View().Valid()
      modifies this
      ensures View() == old(View()).Push(u) && r == old(View()).PushSegments(u)
    {
      r := [];
      if |u.nals| == 0 { return; }
      if !started {
        if !u.idr || sps.None? || pps.None? { return; }
        started, start := true, u.pts;
      }
      if u.idr && |frag| > 0 && u.pts - frag[0].pts >= fragment { r := Cut(u.pts); }
      frag := frag + [u];
    }

    /** Cuts what is left, at the end of the recording. */
    method Flush() returns (r: seq<Segment>)
      requires View().Valid()
      modifies this
      ensures View() == old(View()).Flush()
      ensures r == old(View()).FlushSegments()
    {
      r := [];
      if cur.Some? {
        r := Push(cur.value);
        cur := None;
      }
      assert View() == old(View()).Filed();
      var rest := CutRest();
      r := r + rest;
    }

    method CutRest() returns (r: seq<Segment>)
      requires View().Valid()
      modifies this
      ensures View() == old(View()).Ended() && r == old(View()).EndSegments()
    {
      if |frag| == 0 { return []; }
      var last := frag[|frag| - 1];
      var d := LastDuration();
      r := Cut(last.pts + d);
    }

    method LastDuration() returns (d: int)
      ensures d == View().LastDuration()
    {
      var n := |frag|;
      if n >= 2 {
        d := frag[n - 1].pts - frag[n - 2].pts;
        if d > 0 { return; }
      }
      d := DefaultFrame;
    }

    /** The pending units, which end at end, and the audio before end as one
        fragment; before the first one, the init segment. */
    method Cut(end: int) returns (r: seq<Segment>)
      requires frag != [] && View().Ready()
      modifies this
      ensures View() == old(View()).Cut(end)
      ensures r == old(View()).CutSegments(end)
    {
      r := [];
      if !inited {
        r := [Init(sps.value, pps.value, withAudio)];
        inited := true;
      }
      var video := LayVideo(end);
      var base := frag[0].pts - start;
      number := (number + 1) % U32;
      var sound := TakeAudio(end);
      frag := [];
      r := r + [Fragment(number, base, video, sound)];
    }

    method LayVideo(end: int) returns (t: seq<VideoSample>)
      ensures t == VideoTrack(frag, end)
    {
      t := [];
      var i := 0;
      while i < |frag|
        invariant 0 <= i <= |frag| && t == VideoTrack(frag, end)[..i]
      {
        var next := end;
        if i + 1 < |frag| { next := frag[i + 1].pts; }
        var d := next - frag[i].pts;
        if d <= 0 { d := DefaultFrame; }
        t := t + [VideoSample(d % U32, frag[i].idr, frag[i].nals)];
        i := i + 1;
      }
    }

    /** Takes the encoded audio before end, dropping what came before the start. */
    method TakeAudio(end: int) returns (t: Option<AudioTrack>)
      modifies this`audio, this`audioPos
      ensures var was := Sound(old(audio), old(audioPos));
        && t == (if withAudio then was.Track(start, end) else None)
        && Sound(audio, audioPos) == if withAudio then was.Take(start, end) else was
    {
      if !withAudio { return None; }
      ghost var was := Sound(audio, audioPos);
      var n := 0;
      while n < |audio| && audio[n].pts < end
        invariant 0 <= n <= |audio| && forall j :: 0 <= j < n ==> audio[j].pts < end
      {
        n := n + 1;
      }
      var k := 0;
      while k < n && audioPos < 0 && audio[k].pts < start
        invariant 0 <= k <= n && forall j :: 0 <= j < k ==> audio[j].pts < start
        invariant audioPos >= 0 ==> k == 0
      {
        k := k + 1;
      }
      was.Counted(start, end, n, k);
      var units := audio[k..n];
      audio := audio[n..];
      if |units| == 0 { return None; }
      if audioPos < 0 { audioPos := (units[0].pts - start) * 16000 / 90000; }
      t := Some(AudioTrack(audioPos, Payloads(units)));
      audioPos := audioPos + AacFrame * |units|;
    }
  }
}

module MuxerTimeline {
  import opened Wrappers
  import opened Bytes
  import opened Samples
  import opened MuxerModel

  /** What a player shows of a fragment, in the camera's clock. */
  function Shown(f: Segment, start: int): seq<Unit>
    requires f.Fragment?
  {
    seq(|f.samples|, i requires 0 <= i < |f.samples| =>
      Unit(start + f.At(i), f.samples[i].nals, f.samples[i].sync))
  }

  /** The segments sent so far, the latest last. */
  datatype Film = Blank | Film(before: Film, out: Segment)
  {
    function Count(): nat { if Blank? then 0 else before.Count() + 1 }

    /** The first segment sent. */
    function First(): Segment
      requires Film?
    {
      if before.Blank? then out else before.First()
    }

    function Plus(segs: seq<Segment>): Film
      decreases |segs|
    {
      if segs == [] then this else Film(this, segs[0]).Plus(segs[1..])
    }

    /** What a player shows of it, in the camera's clock. */
    function Played(start: int): seq<Unit> {
      if Blank? then []
      else before.Played(start) + (if out.Init? then [] else Shown(out, start))
    }

    /** One init segment, then fragments numbered from 1 that start on an IDR
        and follow each other without hole or overlap from 0 to end. */
    predicate Tiles(end: int) {
      if Blank? then end == 0
      else if out.Init? then
        before.Blank? && end == 0 && NalType(out.sps) == SPS && NalType(out.pps) == PPS
      else
        && before.Film? && out.number == before.Count() % U32
        && out.samples != [] && out.samples[0].sync
        && out.End() == end
        && before.Tiles(out.base)
    }

    /** Every fragment lasts at least target. */
    predicate Long(target: int) {
      Film? ==> (out.Fragment? ==> out.End() - out.base >= target) && before.Long(target)
    }
  }

  /** f is cut from the units of frag, the last of which ends at end. */
  ghost predicate IsCut(f: Segment, frag: seq<Unit>, start: int, end: int) {
    && frag != [] && frag[0].idr
    && f.Fragment? && f.base == frag[0].pts - start && f.samples == VideoTrack(frag, end)
  }

  /** Unit i is followed by the next one, or by end, later but within the 32
      bits of a duration. */
  ghost predicate Spaced(us: seq<Unit>, end: int) {
    forall i :: 0 <= i < |us| ==> 0 < Gap(us, end, i) < U32
  }

  /** Unit i is shown at its PTS on the recording's clock; what comes after
      the last one, at end. */
  predicate OnTime(f: Segment, frag: seq<Unit>, start: int, end: int, i: nat)
    requires f.Fragment? && i <= |f.samples| == |frag|
  {
    f.At(i) == (if i < |frag| then frag[i].pts else end) - start
  }

  lemma {:induction false} OnTimeExactly(f: Segment, frag: seq<Unit>, start: int, end: int, n: nat)
    requires IsCut(f, frag, start, end) && n <= |frag|
    ensures (forall i :: 0 <= i < n ==> OnTime(f, frag, start, end, i)) && OnTime(f, frag, start, end, n)
       <==> (forall i :: 0 <= i < n ==> 0 < Gap(frag, end, i) < U32)
  {
    if n > 0 {
      OnTimeExactly(f, frag, start, end, n - 1);
      assert f.At(n) == f.At(n - 1) + Duration(frag, end, n - 1);
      assert OnTime(f, frag, start, end, n - 1) ==>
        (OnTime(f, frag, start, end, n) <==> Duration(frag, end, n - 1) == Gap(frag, end, n - 1));
    }
  }

  lemma {:induction false} ShownExactly(f: Segment, frag: seq<Unit>, start: int, end: int)
    requires IsCut(f, frag, start, end)
    ensures Shown(f, start) == frag <==> forall i :: 0 <= i < |frag| ==> OnTime(f, frag, start, end, i)
  {
    if Shown(f, start) == frag {
      forall i | 0 <= i < |frag| ensures OnTime(f, frag, start, end, i) {
        assert Shown(f, start)[i].pts == frag[i].pts;
      }
    } else if forall i :: 0 <= i < |frag| ==> OnTime(f, frag, start, end, i) {
      forall i | 0 <= i < |frag| ensures Shown(f, start)[i] == frag[i] {
        assert OnTime(f, frag, start, end, i);
      }
      assert false;
    }
  }

  /** A fragment plays back the units it was cut from, each at its own PTS, up
      to the end it was given, exactly when these are spaced. */
  lemma {:induction false} FragmentPlaysExactly(f: Segment, frag: seq<Unit>, start: int, end: int)
    requires IsCut(f, frag, start, end)
    ensures Shown(f, start) == frag && f.End() == end - start <==> Spaced(frag, end)
  {
    ShownExactly(f, frag, start, end);
    OnTimeExactly(f, frag, start, end, |frag|);
    assert f.End() == end - start <==> OnTime(f, frag, start, end, |frag|);
  }

  lemma {:induction false} SpacedParts(p: seq<Unit>, frag: seq<Unit>, end: int)
    requires frag != []
    ensures Spaced(p + frag, end) <==> Spaced(p, frag[0].pts) && Spaced(frag, end)
  {
    forall i | 0 <= i < |p| ensures Gap(p + frag, end, i) == Gap(p, frag[0].pts, i) {}
    forall i | 0 <= i < |frag| ensures Gap(p + frag, end, |p| + i) == Gap(frag, end, i) {}
    if Spaced(p, frag[0].pts) && Spaced(frag, end) {
      forall i | 0 <= i < |p + frag| ensures 0 < Gap(p + frag, end, i) < U32 {
        if i >= |p| { assert Gap(p + frag, end, |p| + (i - |p|)) == Gap(frag, end, i - |p|); }
      }
    }
    if Spaced(p + frag, end) {
      forall i | 0 <= i < |frag| ensures 0 < Gap(frag, end, i) < U32 {
        assert Gap(p + frag, end, |p| + i) == Gap(frag, end, i);
      }
    }
  }

  /** film is the units of r, the last of which ends at end, cut on IDRs at
      least target apart: whatever their times, none is left out. */
  ghost predicate CutFrom(film: Film, r: seq<Unit>, start: int, end: int, target: int)
    decreases film
  {
    if film.Blank? then r == [] && end == start
    else if film.out.Init? then
      film.before.Blank? && r == [] && end == start && NalType(film.out.sps) == SPS && NalType(film.out.pps) == PPS
    else
      var k := |r| - |film.out.samples|;
      && 0 <= k && film.before.Film? && film.out.number == film.before.Count() % U32
      && IsCut(film.out, r[k..], start, end) && end - r[k].pts >= target
      && CutFrom(film.before, r[..k], start, r[k].pts, target)
  }

  lemma {:induction false} PlayedLength(film: Film, r: seq<Unit>, start: int, end: int, target: int)
    requires CutFrom(film, r, start, end, target)
    ensures |film.Played(start)| == |r|
  {
    if film.Film? && film.out.Fragment? {
      var k := |r| - |film.out.samples|;
      PlayedLength(film.before, r[..k], start, r[k].pts, target);
    }
  }

  lemma {:induction false} BothParts(a: seq<Unit>, b: seq<Unit>, p: seq<Unit>, q: seq<Unit>)
    requires |a| == |p|
    ensures a + b == p + q <==> a == p && b == q
  {
    assert (a + b)[..|a|] == a && (a + b)[|a|..] == b;
    assert (p + q)[..|p|] == p && (p + q)[|p|..] == q;
  }

  /** A fragment more plays and tiles when the film before it and it do. */
  lemma {:induction false} MoreFilm(b: Film, f: Segment, p: seq<Unit>, frag: seq<Unit>, start: int, end: int)
    requires b.Film? && |b.Played(start)| == |p|
    requires IsCut(f, frag, start, end) && f.number == b.Count() % U32
    ensures Film(b, f).Played(start) == p + frag <==> b.Played(start) == p && Shown(f, start) == frag
    ensures Film(b, f).Tiles(end - start) <==> f.End() == end - start && b.Tiles(frag[0].pts - start)
  {
    BothParts(b.Played(start), Shown(f, start), p, frag);
  }

  lemma {:induction false} MoreFilmExactly(b: Film, f: Segment, p: seq<Unit>, frag: seq<Unit>, start: int, end: int)
    requires b.Film? && |b.Played(start)| == |p|
    requires IsCut(f, frag, start, end) && f.number == b.Count() % U32
    requires b.Played(start) == p && b.Tiles(frag[0].pts - start) <==> Spaced(p, frag[0].pts)
    ensures Film(b, f).Played(start) == p + frag && Film(b, f).Tiles(end - start) <==> Spaced(p + frag, end)
  {
    FragmentPlaysExactly(f, frag, start, end);
    MoreFilm(b, f, p, frag, start, end);
    SpacedParts(p, frag, end);
  }

  /** Units cut this way are played at their times, without hole or overlap,
      exactly when they are spaced. */
  lemma {:induction false} FilmPlaysExactly(film: Film, r: seq<Unit>, start: int, end: int, target: int)
    requires CutFrom(film, r, start, end, target)
    ensures film.Played(start) == r && film.Tiles(end - start) <==> Spaced(r, end)
    ensures Spaced(r, end) ==> film.Long(target)
  {
    PlaysExactly(film, r, start, end, target);
    if Spaced(r, end) { IsLong(film, r, start, end, target); }
  }

  lemma {:induction false} PlaysExactly(film: Film, r: seq<Unit>, start: int, end: int, target: int)
    requires CutFrom(film, r, start, end, target)
    ensures film.Played(start) == r && film.Tiles(end - start) <==> Spaced(r, end)
  {
    if film.Film? && film.out.Fragment? {
      var k := |r| - |film.out.samples|;
      assert r == r[..k] + r[k..];
      PlaysExactly(film.before, r[..k], start, r[k].pts, target);
      PlayedLength(film.before, r[..k], start, r[k].pts, target);
      MoreFilmExactly(film.before, film.out, r[..k], r[k..], start, end);
    }
  }

  lemma {:induction false} IsLong(film: Film, r: seq<Unit>, start: int, end: int, target: int)
    requires CutFrom(film, r, start, end, target) && Spaced(r, end)
    ensures film.Long(target)
  {
    if film.Film? && film.out.Fragment? {
      var k := |r| - |film.out.samples|;
      assert r == r[..k] + r[k..];
      SpacedParts(r[..k], r[k..], end);
      FragmentPlaysExactly(film.out, r[k..], start, end);
      IsLong(film.before, r[..k], start, r[k].pts, target);
    }
  }

  /** What was recorded so far: r is what film was cut from, then the pending units. */
  ghost predicate Reel(m: Mux, film: Film, r: seq<Unit>) {
    && m.Valid()
    && (m.started <==> r != [])
    && (m.inited <==> film.Film?)
    && m.number == (if film.Blank? then 0 else (film.Count() - 1) % U32)
    && if r == [] then film.Blank? && m.frag == []
       else
         && 0 < |m.frag| <= |r| && m.frag == r[|r| - |m.frag|..] && m.frag[0].idr && m.start == r[0].pts
         && CutFrom(film, r[..|r| - |m.frag|], m.start, m.frag[0].pts, m.fragment)
  }

  /** What a cut adds to the film. */
  function CutFilm(m: Mux, film: Film, end: int): Film
    requires m.frag != [] && m.Ready()
  {
    var segs := m.CutSegments(end);
    Film(if m.inited then film else Film(film, segs[0]), segs[|segs| - 1])
  }

  lemma {:induction false} CutFilmIs(m: Mux, film: Film, end: int)
    requires m.frag != [] && m.Ready()
    ensures film.Plus(m.CutSegments(end)) == CutFilm(m, film, end)
  {
    var segs := m.CutSegments(end);
    if !m.inited {
      assert segs[1..] == [segs[1]] && [segs[1]][1..] == [];
      assert Film(film, segs[0]).Plus([segs[1]]) == Film(Film(film, segs[0]), segs[1]).Plus([]);
    }
  }

  lemma {:induction false} NextNumber(n: nat)
    ensures (n % U32 + 1) % U32 == (n + 1) % U32
  {
  }

  /** A cut puts the pending units, and nothing else, on film. */
  lemma {:induction false} CutAdds(m: Mux, film: Film, r: seq<Unit>, end: int) returns (all: Film)
    requires Reel(m, film, r) && r != []
    ensures film.Plus(m.CutSegments(end)) == all
    ensures all.Film? && all.before.Film? && all.out.Fragment? && all.out.number == all.before.Count() % U32
    ensures IsCut(all.out, m.frag, m.start, end)
    ensures CutFrom(all.before, r[..|r| - |m.frag|], m.start, m.frag[0].pts, m.fragment)
    ensures m.Cut(end).number == (all.Count() - 1) % U32
  {
    CutFilmIs(m, film, end);
    all := CutFilm(m, film, end);
    NextNumber(all.before.Count() - 1);
  }

  lemma {:induction false} CutMore(b: Film, f: Segment, p: seq<Unit>, frag: seq<Unit>, start: int, end: int,
                                   target: int)
    requires IsCut(f, frag, start, end) && end - frag[0].pts >= target
    requires b.Film? && f.number == b.Count() % U32 && CutFrom(b, p, start, frag[0].pts, target)
    ensures CutFrom(Film(b, f), p + frag, start, end, target)
  {
    assert (p + frag)[|p|..] == frag && (p + frag)[..|p|] == p;
  }

  lemma {:induction false} CutReel(m: Mux, film: Film, r: seq<Unit>, u: Unit)
    requires Reel(m, film, r) && r != [] && m.Cuts(u)
    ensures Reel(m.Cut(u.pts).(frag := [u]), film.Plus(m.CutSegments(u.pts)), r + [u])
  {
    var all := CutAdds(m, film, r, u.pts);
    var p := r[..|r| - |m.frag|];
    CutMore(all.before, all.out, p, m.frag, m.start, u.pts, m.fragment);
    assert p + m.frag == r;
    NewFragment(m.Cut(u.pts), all, r, u);
  }

  lemma {:induction false} NewFragment(m: Mux, film: Film, r: seq<Unit>, u: Unit)
    requires m.Valid() && m.started && m.inited && film.Film? && m.number == (film.Count() - 1) % U32
    requires r != [] && m.start == r[0].pts && u.idr && CutFrom(film, r, m.start, u.pts, m.fragment)
    ensures Reel(m.(frag := [u]), film, r + [u])
  {
    assert (r + [u])[|r|..] == [u] && (r + [u])[..|r|] == r;
  }

  lemma {:induction false} KeepReel(m: Mux, film: Film, r: seq<Unit>, u: Unit)
    requires Reel(m, film, r) && r != []
    ensures Reel(m.(frag := m.frag + [u]), film, r + [u])
  {
    var k := |r| - |m.frag|;
    assert (r + [u])[k..] == m.frag + [u] && (r + [u])[..k] == r[..k];
  }

  lemma {:induction false} StartReel(m: Mux, film: Film, u: Unit)
    requires Reel(m, film, []) && !m.Skips(u)
    ensures Reel(m.Push(u), film.Plus(m.PushSegments(u)), [u])
  {
    assert m.frag + [u] == [u] && [u][..0] == [];
  }

  /** Filing a unit adds it to what was recorded. */
  lemma {:induction false} PushReel(m: Mux, film: Film, r: seq<Unit>, u: Unit)
    requires Reel(m, film, r) && !m.Skips(u)
    ensures Reel(m.Push(u), film.Plus(m.PushSegments(u)), r + [u])
  {
    if r == [] {
      StartReel(m, film, u);
      assert r + [u] == [u];
    } else if m.Cuts(u) {
      CutReel(m, film, r, u);
      assert m.Push(u) == m.Cut(u.pts).(frag := [u]);
    } else {
      KeepReel(m, film, r, u);
      assert m.Push(u) == m.(frag := m.frag + [u]);
    }
  }
}

module MuxerHistory {
  import opened Wrappers
  import opened Bytes
  import opened Samples
  import opened MuxerModel
  import opened MuxerTimeline

  /** The NALs to show, parameter sets and delimiters left out. */
  function Slices(nals: seq<seq<byte>>): seq<seq<byte>> {
    if nals == [] then []
    else
      var n := |nals| - 1;
      Slices(nals[..n]) + (if NalType(nals[n]) in {SPS, PPS, AUD} then [] else [nals[n]])
  }

  /** The newest NAL of type t. */
  function NewestOf(nals: seq<seq<byte>>, t: nat): Option<seq<byte>> {
    if nals == [] then None
    else if NalType(nals[|nals| - 1]) == t then Some(nals[|nals| - 1])
    else NewestOf(nals[..|nals| - 1], t)
  }

  /** The NALs of a video stream grouped by PTS, the latest group last. */
  datatype Stream = Nothing | Stream(before: Stream, pts: int, nals: seq<seq<byte>>)
  {
    function Unit(): Unit
      requires Stream?
    {
      MuxerModel.Unit(pts, Slices(nals), NewestOf(nals, IDR).Some?)
    }

    function Newest(t: nat): Option<seq<byte>> {
      if Nothing? then None
      else if NewestOf(nals, t).Some? then NewestOf(nals, t) else before.Newest(t)
    }

    /** Everything but the latest group. */
    function Past(): Stream { if Nothing? then Nothing else before }

    /** The access units a recording of it shows: from the first IDR that has
        its parameter sets on, all that have anything to show. */
    function Recorded(): seq<Unit> {
      if Nothing? then []
      else
        var r, u := before.Recorded(), Unit();
        if u.nals == [] || (r == [] && !(u.idr && Newest(SPS).Some? && Newest(PPS).Some?)) then r
        else r + [u]
    }

    /** The groups go forward in time. */
    predicate Rises() {
      Stream? ==> before.Rises() && (before.Stream? ==> before.pts < pts)
    }
  }

  function Grouped(a: Stream, s: Sample): Stream {
    if !s.isVideo then a
    else if a.Stream? && a.pts == s.pts then a.(nals := a.nals + [s.data])
    else Stream(a, s.pts, [s.data])
  }

  /** The first n samples of h by PTS. */
  function Groups(h: seq<Sample>, n: nat): Stream
    requires n <= |h|
  {
    if n == 0 then Nothing else Grouped(Groups(h, n - 1), h[n - 1])
  }

  lemma {:induction false} MoreNals(nals: seq<seq<byte>>, nal: seq<byte>, t: nat)
    ensures Slices(nals + [nal]) == Slices(nals) + if NalType(nal) in {SPS, PPS, AUD} then [] else [nal]
    ensures NewestOf(nals + [nal], t) == if NalType(nal) == t then Some(nal) else NewestOf(nals, t)
  {
    assert (nals + [nal])[..|nals|] == nals;
  }

  lemma {:induction false} GroupsRise(h: seq<Sample>, n: nat)
    requires n <= |h| && InOrder(h)
    ensures Groups(h, n).Rises()
    ensures Groups(h, n).Stream? ==> exists j :: 0 <= j < n && h[j].isVideo && h[j].pts == Groups(h, n).pts
  {
    if n > 0 {
      GroupsRise(h, n - 1);
      if h[n - 1].isVideo { assert h[n - 1].pts == Groups(h, n).pts; }
    }
  }

  /** Every unit is later than the one before it, by less than 2^32 ticks:
      13 hours. */
  ghost predicate Steady(r: seq<Unit>) {
    forall i :: 1 <= i < |r| ==> 0 < r[i].pts - r[i - 1].pts < U32
  }

  lemma {:induction false} RecordedRises(a: Stream)
    requires a.Rises()
    ensures var r := a.Recorded();
      && (r != [] ==> a.Stream? && r[|r| - 1].pts <= a.pts)
      && forall i :: 1 <= i < |r| ==> r[i - 1].pts < r[i].pts
  {
    if a.Stream? { RecordedRises(a.before); }
  }

  /** The muxer and what it sent. */
  datatype Recording = Recording(m: Mux, film: Film)

  /** A recording after n samples; coded(i) is what the audio encoder
      completes with sample i. */
  function Run(ms: int, withAudio: bool, h: seq<Sample>, coded: nat -> seq<Coded>, n: nat): (r: Recording)
    requires n <= |h|
    ensures r.m.Valid()
  {
    if n == 0 then Recording(New(ms, withAudio), Blank)
    else
      var was := Run(ms, withAudio, h, coded, n - 1);
      Recording(was.m.Write(h[n - 1], coded(n - 1)), was.film.Plus(was.m.WriteSegments(h[n - 1])))
  }

  lemma {:induction false} SettingsStay(ms: int, withAudio: bool, h: seq<Sample>, coded: nat -> seq<Coded>, n: nat)
    requires n <= |h|
    ensures var m := Run(ms, withAudio, h, coded, n).m;
      m.fragment == New(ms, withAudio).fragment && m.withAudio == withAudio
  {
    if n > 0 {
      SettingsStay(ms, withAudio, h, coded, n - 1);
      WriteKeepsSettings(Run(ms, withAudio, h, coded, n - 1).m, h[n - 1], coded(n - 1));
    }
  }

  lemma {:induction false} WriteKeepsSettings(m: Mux, s: Sample, coded: seq<Coded>)
    ensures m.Write(s, coded).fragment == m.fragment && m.Write(s, coded).withAudio == m.withAudio
  {
  }

  /** The muxer's state is the stream's: the current unit is the latest
      group, and all before it is on film or pending. */
  ghost predicate InStep(w: Recording, a: Stream) {
    && w.m.cur == (if a.Nothing? then None else Some(a.Unit()))
    && w.m.sps == a.Newest(SPS) && w.m.pps == a.Newest(PPS)
    && Reel(w.m, w.film, a.Past().Recorded())
  }

  /** m and n differ in nothing that was recorded. */
  lemma {:induction false} SameReel(m: Mux, n: Mux, film: Film, r: seq<Unit>)
    requires Reel(m, film, r) && n.Valid()
    requires n == m.(cur := n.cur, sps := n.sps, pps := n.pps, sound := n.sound)
    ensures Reel(n, film, r)
  {
  }

  lemma {:induction false} NalInStep(w: Recording, a: Stream, s: Sample)
    requires s.isVideo && a.Stream? && a.pts == s.pts && InStep(w, a)
    ensures InStep(Recording(w.m.AddNal(s.data), w.film), Grouped(a, s))
  {
    MoreNals(a.nals, s.data, SPS);
    MoreNals(a.nals, s.data, PPS);
    MoreNals(a.nals, s.data, IDR);
    SameReel(w.m, w.m.AddNal(s.data), w.film, a.Past().Recorded());
    assert Slices(a.nals) + [] == Slices(a.nals);
  }

  /** Filing the current unit puts the whole stream on film or pending. */
  lemma {:induction false} FileInStep(w: Recording, a: Stream)
    requires InStep(w, a) && a.Stream?
    ensures Reel(w.m.Push(a.Unit()), w.film.Plus(w.m.PushSegments(a.Unit())), a.Recorded())
  {
    if !w.m.Skips(a.Unit()) { PushReel(w.m, w.film, a.before.Recorded(), a.Unit()); }
  }

  /** A new group files the one before it. */
  lemma {:induction false} NewGroupInStep(w: Recording, a: Stream, s: Sample, coded: seq<Coded>)
    requires s.isVideo && InStep(w, a) && (a.Stream? ==> a.pts != s.pts)
    ensures InStep(Recording(w.m.Write(s, coded), w.film.Plus(w.m.WriteSegments(s))), Grouped(a, s))
  {
    if a.Stream? { FileInStep(w, a); }
    var m := if a.Stream? then w.m.Push(a.Unit()) else w.m;
    var film := if a.Stream? then w.film.Plus(w.m.PushSegments(a.Unit())) else w.film;
    NextGroup(m, film, a, s);
  }

  /** The group that s opens. */
  lemma {:induction false} NextGroup(m: Mux, film: Film, a: Stream, s: Sample)
    requires s.isVideo && (a.Stream? ==> a.pts != s.pts) && Reel(m, film, a.Recorded())
    requires m.sps == a.Newest(SPS) && m.pps == a.Newest(PPS)
    ensures InStep(Recording(m.(cur := Some(Unit(s.pts, [], false))).AddNal(s.data), film), Grouped(a, s))
  {
    var n := m.(cur := Some(Unit(s.pts, [], false))).AddNal(s.data);
    SameReel(m, n, film, a.Recorded());
    assert [] + [s.data] == [s.data];
    MoreNals([], s.data, SPS);
    MoreNals([], s.data, PPS);
    MoreNals([], s.data, IDR);
  }

  /** After any samples at all, the muxer is in step with the stream. */
  lemma {:induction false} RunInStep(ms: int, withAudio: bool, h: seq<Sample>, coded: nat -> seq<Coded>, n: nat)
    requires n <= |h|
    ensures InStep(Run(ms, withAudio, h, coded, n), Groups(h, n))
  {
    if n > 0 {
      RunInStep(ms, withAudio, h, coded, n - 1);
      SampleInStep(Run(ms, withAudio, h, coded, n - 1), Groups(h, n - 1), h[n - 1], coded(n - 1));
    }
  }

  lemma {:induction false} SoundInStep(w: Recording, a: Stream, s: Sample, coded: seq<Coded>)
    requires InStep(w, a) && !s.isVideo
    ensures InStep(Recording(w.m.Write(s, coded), w.film.Plus(w.m.WriteSegments(s))), a)
  {
    SameReel(w.m, w.m.Write(s, coded), w.film, a.Past().Recorded());
  }

  lemma {:induction false} SampleInStep(w: Recording, a: Stream, s: Sample, coded: seq<Coded>)
    requires InStep(w, a)
    ensures InStep(Recording(w.m.Write(s, coded), w.film.Plus(w.m.WriteSegments(s))), Grouped(a, s))
  {
    if !s.isVideo {
      SoundInStep(w, a, s, coded);
    } else if a.Stream? && a.pts == s.pts {
      NalInStep(w, a, s);
    } else {
      NewGroupInStep(w, a, s, coded);
    }
  }

  /** The whole recording, flushed. */
  function Whole(ms: int, withAudio: bool, h: seq<Sample>, coded: nat -> seq<Coded>): Film {
    var w := Run(ms, withAudio, h, coded, |h|);
    w.film.Plus(w.m.FlushSegments())
  }

  lemma {:induction false} PlusTwice(f: Film, a: seq<Segment>, b: seq<Segment>)
    ensures f.Plus(a + b) == f.Plus(a).Plus(b)
    decreases |a|
  {
    if a == [] {
      assert a + b == b;
    } else {
      assert (a + b)[1..] == a[1..] + b;
      PlusTwice(Film(f, a[0]), a[1..], b);
    }
  }

  /** What was sent after each number of samples. */
  function Films(ms: int, withAudio: bool, h: seq<Sample>, coded: nat -> seq<Coded>): seq<Film> {
    seq(|h| + 1, i requires 0 <= i <= |h| => Run(ms, withAudio, h, coded, i).film)
  }

  /** How many samples had been taken when the init segment was made; n if it
      was not by then. */
  function Opened(films: seq<Film>, n: nat): (k: nat)
    requires n < |films|
    ensures k <= n
  {
    if n == 0 || films[n].Blank? then n
    else if films[n - 1].Blank? then n - 1
    else Opened(films, n - 1)
  }

  predicate KeepsFirst(films: seq<Film>, i: nat)
    requires i + 1 < |films|
  {
    films[i].Film? ==> films[i + 1].Film? && films[i + 1].First() == films[i].First()
  }

  lemma {:induction false} OpenedIs(films: seq<Film>, n: nat)
    requires n < |films| && films[0].Blank? && films[n].Film? && forall i :: 0 <= i < n ==> KeepsFirst(films, i)
    ensures var k := Opened(films, n);
      k < n && films[k].Blank? && films[k + 1].Film? && films[n].First() == films[k + 1].First()
  {
    assert KeepsFirst(films, n - 1);
    if films[n - 1].Film? { OpenedIs(films, n - 1); }
  }

  lemma {:induction false} PlusKeepsFirst(f: Film, segs: seq<Segment>)
    ensures f.Film? ==> f.Plus(segs).Film? && f.Plus(segs).First() == f.First()
    ensures f.Blank? && segs != [] ==> f.Plus(segs).Film? && f.Plus(segs).First() == segs[0]
    decreases |segs|
  {
    if segs != [] { PlusKeepsFirst(Film(f, segs[0]), segs[1..]); }
  }

  /** The init segment of a and the parameter sets newest in it. */
  predicate Opens(film: Film, a: Stream, withAudio: bool) {
    && film.Film? && a.Newest(SPS).Some? && a.Newest(PPS).Some?
    && film.First() == Init(a.Newest(SPS).value, a.Newest(PPS).value, withAudio)
  }

  lemma {:induction false} PushOpens(w: Recording, a: Stream)
    requires InStep(w, a) && a.Stream? && w.film.Blank? && w.m.PushSegments(a.Unit()) != []
    ensures Opens(w.film.Plus(w.m.PushSegments(a.Unit())), a, w.m.withAudio)
  {
    PlusKeepsFirst(w.film, w.m.PushSegments(a.Unit()));
  }

  lemma {:induction false} WriteOpens(w: Recording, a: Stream, s: Sample)
    requires InStep(w, a) && w.film.Blank? && w.film.Plus(w.m.WriteSegments(s)).Film?
    ensures Opens(w.film.Plus(w.m.WriteSegments(s)), a, w.m.withAudio)
  {
    if a.Stream? && w.m.WriteSegments(s) != [] { PushOpens(w, a); }
  }

  lemma {:induction false} RunMore(ms: int, withAudio: bool, h: seq<Sample>, coded: nat -> seq<Coded>, n: nat)
    requires n < |h|
    ensures var w := Run(ms, withAudio, h, coded, n);
      Run(ms, withAudio, h, coded, n + 1).film == w.film.Plus(w.m.WriteSegments(h[n]))
  {
  }

  lemma {:induction false} FilmsKeepFirst(ms: int, withAudio: bool, h: seq<Sample>, coded: nat -> seq<Coded>, i: nat)
    requires i < |h|
    ensures KeepsFirst(Films(ms, withAudio, h, coded), i)
  {
    RunMore(ms, withAudio, h, coded, i);
    var w := Run(ms, withAudio, h, coded, i);
    PlusKeepsFirst(w.film, w.m.WriteSegments(h[i]));
  }

  /** The sample that makes the init segment. */
  lemma {:induction false} SampleOpens(ms: int, withAudio: bool, h: seq<Sample>, coded: nat -> seq<Coded>, n: nat)
    requires n < |h|
    requires var w := Run(ms, withAudio, h, coded, n);
      w.film.Blank? && w.film.Plus(w.m.WriteSegments(h[n])).Film?
    ensures var w := Run(ms, withAudio, h, coded, n);
      Opens(w.film.Plus(w.m.WriteSegments(h[n])), Groups(h, n), withAudio)
  {
    RunInStep(ms, withAudio, h, coded, n);
    SettingsStay(ms, withAudio, h, coded, n);
    WriteOpens(Run(ms, withAudio, h, coded, n), Groups(h, n), h[n]);
  }

  lemma {:induction false} RunOpens(ms: int, withAudio: bool, h: seq<Sample>, coded: nat -> seq<Coded>)
    requires Run(ms, withAudio, h, coded, |h|).film.Film?
    ensures var films := Films(ms, withAudio, h, coded);
      Opens(films[|h|], Groups(h, Opened(films, |h|)), withAudio)
  {
    var films := Films(ms, withAudio, h, coded);
    forall i | 0 <= i < |h| ensures KeepsFirst(films, i) { FilmsKeepFirst(ms, withAudio, h, coded, i); }
    OpenedIs(films, |h|);
    var k := Opened(films, |h|);
    RunMore(ms, withAudio, h, coded, k);
    SampleOpens(ms, withAudio, h, coded, k);
  }

  lemma {:induction false} EndOpens(m: Mux, film: Film, r: seq<Unit>, a: Stream)
    requires Reel(m, film, r) && film.Blank? && m.sps == a.Newest(SPS) && m.pps == a.Newest(PPS) && r != []
    ensures Opens(film.Plus(m.EndSegments()), a, m.withAudio)
  {
    PlusKeepsFirst(film, m.EndSegments());
  }

  lemma {:induction false} FlushOpens(w: Recording, a: Stream)
    requires InStep(w, a) && w.film.Blank? && w.film.Plus(w.m.FlushSegments()).Film?
    ensures Opens(w.film.Plus(w.m.FlushSegments()), a, w.m.withAudio)
  {
    var segs := if a.Stream? then w.m.PushSegments(a.Unit()) else [];
    var m, film := w.m.Filed(), w.film.Plus(segs);
    if a.Stream? { FileInStep(w, a); }
    PlusTwice(w.film, segs, m.EndSegments());
    PlusKeepsFirst(film, m.EndSegments());
    if segs != [] {
      PushOpens(w, a);
    } else {
      SameReel(if a.Stream? then w.m.Push(a.Unit()) else w.m, m, film, a.Recorded());
      EndOpens(m, film, a.Recorded(), a);
    }
  }

  /** A recording begins with an init segment; its parameter sets are the
      newest the camera had sent when the first fragment was cut, and not
      those of the first unit recorded, should they have changed since. */
  lemma {:induction false} InitIsNewest(ms: int, withAudio: bool, h: seq<Sample>, coded: nat -> seq<Coded>)
    requires Whole(ms, withAudio, h, coded).Film?
    ensures var a := Groups(h, Opened(Films(ms, withAudio, h, coded), |h|));
      && a.Newest(SPS).Some? && a.Newest(PPS).Some?
      && Whole(ms, withAudio, h, coded).First() == Init(a.Newest(SPS).value, a.Newest(PPS).value, withAudio)
  {
    var w := Run(ms, withAudio, h, coded, |h|);
    PlusKeepsFirst(w.film, w.m.FlushSegments());
    RunInStep(ms, withAudio, h, coded, |h|);
    SettingsStay(ms, withAudio, h, coded, |h|);
    if w.film.Film? { RunOpens(ms, withAudio, h, coded); } else { FlushOpens(w, Groups(h, |h|)); }
  }

  /** A film plays r, each unit once, in order and at its own time, in
      fragments that tile its timeline and last, but for the last, at least
      target; there is none when there is nothing to play. */
  ghost predicate Plays(film: Film, r: seq<Unit>, target: int) {
    if r == [] then film.Blank?
    else
      && film.Film? && film.out.Fragment?
      && film.Played(r[0].pts) == r
      && film.Tiles(film.out.End())
      && film.before.Long(target)
  }

  lemma {:induction false} SteadyIsSpaced(r: seq<Unit>, end: int)
    requires r != [] && (Steady(r) ==> 0 < end - r[|r| - 1].pts < U32)
    ensures Steady(r) <==> Spaced(r, end)
  {
    forall i | 1 <= i < |r| ensures Gap(r, end, i - 1) == r[i].pts - r[i - 1].pts {}
    if Steady(r) {
      forall i | 0 <= i < |r| ensures 0 < Gap(r, end, i) < U32 {
        if i + 1 < |r| { assert Gap(r, end, i) == r[i + 1].pts - r[i + 1 - 1].pts; }
      }
    }
  }

  /** The guess for the last unit's duration changes nothing to the times the
      units are shown at. */
  lemma {:induction false} EndSpaced(m: Mux, r: seq<Unit>, k: nat)
    requires m.frag != [] && k < |r| && m.frag == r[k..]
    ensures Steady(r) <==> Spaced(r[..k], m.frag[0].pts) && Spaced(m.frag, m.FlushEnd())
  {
    var n := |r|;
    assert r == r[..k] + m.frag;
    assert m.frag[|m.frag| - 1] == r[n - 1] && (|m.frag| >= 2 ==> m.frag[|m.frag| - 2] == r[n - 2]);
    assert Steady(r) && n >= 2 ==> r[n - 1].pts - r[n - 1 - 1].pts < U32;
    SteadyIsSpaced(r, m.FlushEnd());
    SpacedParts(r[..k], m.frag, m.FlushEnd());
  }

  lemma {:induction false} GuessIsSpaced(m: Mux)
    requires m.frag != []
    ensures (forall i :: 0 <= i < |m.frag| - 1 ==> 0 < Gap(m.frag, m.FlushEnd(), i) < U32)
       <==> Spaced(m.frag, m.FlushEnd())
  {
    var n, end := |m.frag|, m.FlushEnd();
    if n >= 2 { assert Gap(m.frag, end, n - 2) == m.frag[n - 1].pts - m.frag[n - 2].pts; }
  }

  /** Played up to its last unit, a fragment plays to the end it was given. */
  lemma {:induction false} LastPlaysExactly(f: Segment, m: Mux)
    requires m.frag != [] && IsCut(f, m.frag, m.start, m.FlushEnd())
    ensures Shown(f, m.start) == m.frag <==> Spaced(m.frag, m.FlushEnd())
  {
    ShownExactly(f, m.frag, m.start, m.FlushEnd());
    OnTimeExactly(f, m.frag, m.start, m.FlushEnd(), |m.frag| - 1);
    GuessIsSpaced(m);
  }

  lemma {:induction false} LastFilm(b: Film, f: Segment, m: Mux, p: seq<Unit>)
    requires b.Film? && m.frag != [] && IsCut(f, m.frag, m.start, m.FlushEnd())
    requires f.number == b.Count() % U32 && CutFrom(b, p, m.start, m.frag[0].pts, m.fragment)
    requires m.start == (p + m.frag)[0].pts
    ensures Plays(Film(b, f), p + m.frag, m.fragment)
       <==> Spaced(p, m.frag[0].pts) && Spaced(m.frag, m.FlushEnd())
  {
    PlayedLength(b, p, m.start, m.frag[0].pts, m.fragment);
    FilmPlaysExactly(b, p, m.start, m.frag[0].pts, m.fragment);
    MoreFilm(b, f, p, m.frag, m.start, m.FlushEnd());
    LastPlaysExactly(f, m);
    assert Film(b, f).Tiles(f.End()) <==> b.Tiles(m.frag[0].pts - m.start);
  }

  lemma {:induction false} EndPlays(m: Mux, film: Film, r: seq<Unit>)
    requires Reel(m, film, r)
    ensures Plays(film.Plus(m.EndSegments()), r, m.fragment) <==> Steady(r)
  {
    if r != [] {
      var all := CutAdds(m, film, r, m.FlushEnd());
      LastReel(all, m, r, |r| - |m.frag|);
    }
  }

  lemma {:induction false} LastReel(all: Film, m: Mux, r: seq<Unit>, k: nat)
    requires all.Film? && all.before.Film? && m.frag != [] && k < |r| && m.frag == r[k..] && m.start == r[0].pts
    requires IsCut(all.out, m.frag, m.start, m.FlushEnd()) && all.out.number == all.before.Count() % U32
    requires CutFrom(all.before, r[..k], m.start, m.frag[0].pts, m.fragment)
    ensures Plays(all, r, m.fragment) <==> Steady(r)
  {
    assert r == r[..k] + m.frag;
    EndSpaced(m, r, k);
    LastFilm(all.before, all.out, m, r[..k]);
  }

  lemma {:induction false} FlushPlays(w: Recording, a: Stream)
    requires InStep(w, a)
    ensures Plays(w.film.Plus(w.m.FlushSegments()), a.Recorded(), w.m.fragment) <==> Steady(a.Recorded())
  {
    var segs := if a.Stream? then w.m.PushSegments(a.Unit()) else [];
    if a.Stream? { FileInStep(w, a); }
    var m, film := w.m.Filed(), w.film.Plus(segs);
    SameReel(if a.Stream? then w.m.Push(a.Unit()) else w.m, m, film, a.Recorded());
    PlusTwice(w.film, segs, m.EndSegments());
    EndPlays(m, film, a.Recorded());
    assert w.m.FlushSegments() == segs + m.EndSegments() && m.fragment == w.m.fragment;
  }

  /** A whole recording plays every access unit of the stream from the first
      IDR that has its parameter sets on, exactly when their times are steady. */
  lemma {:induction false} RecordingIsTheStream(ms: int, withAudio: bool, h: seq<Sample>, coded: nat -> seq<Coded>)
    ensures Plays(Whole(ms, withAudio, h, coded), Groups(h, |h|).Recorded(), New(ms, withAudio).fragment)
       <==> Steady(Groups(h, |h|).Recorded())
  {
    RunInStep(ms, withAudio, h, coded, |h|);
    SettingsStay(ms, withAudio, h, coded, |h|);
    FlushPlays(Run(ms, withAudio, h, coded, |h|), Groups(h, |h|));
  }

  /** Of a stream that never goes back in time, only a unit 13 hours or more
      after the one before it can go wrong. */
  lemma {:induction false} InOrderIsSteady(h: seq<Sample>)
    requires InOrder(h)
    ensures var r := Groups(h, |h|).Recorded();
      Steady(r) <==> forall i :: 1 <= i < |r| ==> r[i].pts - r[i - 1].pts < U32
  {
    GroupsRise(h, |h|);
    RecordedRises(Groups(h, |h|));
  }

  /** Two IDRs 13 hours apart: the second is shown at once. */
  lemma {:induction false} LongGapIsLost(withAudio: bool, coded: nat -> seq<Coded>) returns (h: seq<Sample>)
    ensures InOrder(h)
    ensures !Plays(Whole(4000, withAudio, h, coded), Groups(h, |h|).Recorded(), New(4000, withAudio).fragment)
  {
    h := LongGap();
    RecordingIsTheStream(4000, withAudio, h, coded);
  }

  lemma {:induction false} LongGap() returns (h: seq<Sample>)
    ensures InOrder(h) && !Steady(Groups(h, |h|).Recorded())
  {
    h := [Sample(true, 0, [SPS]), Sample(true, 0, [PPS]), Sample(true, 0, [IDR]), Sample(true, U32, [IDR])];
    TwoGroups(h);
    TwoShown();
  }

  lemma {:induction false} TwoGroups(h: seq<Sample>)
    requires |h| == 4 && h[0] == Sample(true, 0, [SPS]) && h[1] == Sample(true, 0, [PPS])
    requires h[2] == Sample(true, 0, [IDR]) && h[3] == Sample(true, U32, [IDR])
    ensures Groups(h, 4) == Stream(Stream(Nothing, 0, [[SPS], [PPS], [IDR]]), U32, [[IDR]])
  {
    assert Groups(h, 1) == Stream(Nothing, 0, [[SPS]]);
    assert Groups(h, 2) == Stream(Nothing, 0, [[SPS], [PPS]]);
    assert Groups(h, 3) == Stream(Nothing, 0, [[SPS], [PPS], [IDR]]);
  }

  lemma {:induction false} TwoShown()
    ensures var r := Stream(Stream(Nothing, 0, [[SPS], [PPS], [IDR]]), U32, [[IDR]]).Recorded();
      |r| == 2 && r[1].pts - r[0].pts == U32
  {
    var nals: seq<seq<byte>> := [[SPS], [PPS], [IDR]];
    assert nals[..2] == [[SPS], [PPS]] && nals[..2][..1] == [[SPS]] && nals[..2][..1][..0] == [];
    var a := Stream(Nothing, 0, nals);
    assert Slices(nals) == Slices(nals[..2]) + [nals[2]];
    assert NewestOf(nals, IDR) == Some(nals[2]);
    assert NewestOf(nals, PPS) == NewestOf(nals[..2], PPS) == Some(nals[1]);
    assert NewestOf(nals, SPS) == NewestOf(nals[..2], SPS) == NewestOf(nals[..2][..1], SPS) == Some(nals[0]);
    assert a.Recorded() == [a.Unit()];
    assert Slices([[IDR]]) == Slices([[IDR]][..0]) + [[IDR]];
    assert Stream(a, U32, [[IDR]]).Unit().nals != [];
  }
}

module MuxerAudio {
  import opened Wrappers
  import opened Bytes
  import opened Samples
  import opened MuxerModel
  import opened MuxerTimeline
  import opened MuxerHistory

  /** What the encoder completed with the first n samples. */
  function Heard(h: seq<Sample>, coded: nat -> seq<Coded>, n: nat): seq<Coded>
    requires n <= |h|
  {
    if n == 0 then []
    else Heard(h, coded, n - 1) + (if h[n - 1].isVideo then [] else coded(n - 1))
  }

  function TrackOf(s: Segment): Option<AudioTrack> {
    if s.Init? then None else s.audio
  }

  /** The audio units on film. */
  function Sent(film: Film): seq<seq<byte>> {
    if film.Blank? then []
    else Sent(film.before) + match TrackOf(film.out) case None => [] case Some(t) => t.units
  }

  /** Where the audio timeline stands; -1 before the first unit. */
  function AudioEnd(film: Film): int {
    if film.Blank? then -1
    else match TrackOf(film.out)
      case None => AudioEnd(film.before)
      case Some(t) => t.base + AacFrame * |t.units|
  }

  /** No audio track is empty, and each begins where the one before it ends. */
  predicate AudioTiles(film: Film) {
    film.Film? ==>
      && AudioTiles(film.before)
      && match TrackOf(film.out)
         case None => true
         case Some(t) =>
           && t.units != [] && t.base >= 0
           && (AudioEnd(film.before) >= 0 ==> t.base == AudioEnd(film.before))
  }

  /** The audio heard is what was dropped, from before the start, then what
      is on film, from the first unit's time on, then what is pending. */
  ghost predicate Split(s: Sound, start: int, film: Film, heard: seq<Coded>, dropped: seq<Coded>, sent: seq<Coded>) {
    && heard == dropped + sent + s.audio
    && Sent(film) == Payloads(sent)
    && AudioTiles(film) && AudioEnd(film) == s.pos
    && (forall i :: 0 <= i < |dropped| ==> dropped[i].pts < start)
    && if sent == [] then s.pos == -1
       else
         && sent[0].pts >= start
         && s.pos == (sent[0].pts - start) * 16000 / 90000 + AacFrame * |sent|
  }

  ghost predicate AudioInStep(m: Mux, film: Film, heard: seq<Coded>) {
    exists dropped, sent ::
      Split(m.sound, m.start, film, heard, dropped, sent) && (dropped + sent != [] ==> m.started)
  }

  lemma {:induction false} PayloadsMore(a: seq<Coded>, b: seq<Coded>)
    ensures Payloads(a + b) == Payloads(a) + Payloads(b)
  {
  }

  lemma {:induction false} Regroup(dropped: seq<Coded>, sent: seq<Coded>, x: seq<Coded>, y: seq<Coded>, z: seq<Coded>)
    requires sent == [] || x == []
    ensures dropped + sent + (x + y + z) == (dropped + x) + (sent + y) + z
  {
  }

  lemma {:induction false} ThreeParts(a: seq<Coded>, d: nat, t: nat)
    requires d <= t <= |a|
    ensures a == a[..d] + a[d..t] + a[t..]
  {
  }

  lemma {:induction false} TakeEnds(s: Sound, start: int, end: int, sent: seq<Coded>)
    requires if sent == [] then s.pos == -1
             else sent[0].pts >= start && s.pos == (sent[0].pts - start) * 16000 / 90000 + AacFrame * |sent|
    ensures var more := sent + s.audio[s.Dropped(start, end)..s.Taken(end)];
      var pos := s.Take(start, end).pos;
      if more == [] then pos == -1
      else more[0].pts >= start && pos == (more[0].pts - start) * 16000 / 90000 + AacFrame * |more|
  {
    if sent == [] && s.Dropped(start, end) < s.Taken(end) {
      assert s.audio[s.Dropped(start, end)..s.Taken(end)][0] == s.audio[s.Dropped(start, end)];
    }
  }

  lemma {:induction false} Parts(s: Sound, start: int, end: int) returns (x: seq<Coded>, y: seq<Coded>)
    ensures s.audio == x + y + s.Take(start, end).audio
    ensures x == s.audio[..s.Dropped(start, end)] && y == s.audio[s.Dropped(start, end)..s.Taken(end)]
    ensures (forall i :: 0 <= i < |x| ==> x[i].pts < start) && (s.pos >= 0 ==> x == [])
  {
    x, y := s.audio[..s.Dropped(start, end)], s.audio[s.Dropped(start, end)..s.Taken(end)];
    ThreeParts(s.audio, s.Dropped(start, end), s.Taken(end));
  }

  /** A cut moves audio from pending to film, dropping none after the first. */
  lemma {:induction false} TakeSplits(s: Sound, start: int, end: int, film: Film, f: Segment,
                                      heard: seq<Coded>, dropped: seq<Coded>, sent: seq<Coded>)
    returns (x: seq<Coded>, y: seq<Coded>)
    requires Split(s, start, film, heard, dropped, sent)
    requires f.Fragment? && f.audio == s.Track(start, end)
    ensures Split(s.Take(start, end), start, Film(film, f), heard, dropped + x, sent + y)
  {
    x, y := Parts(s, start, end);
    TakeEnds(s, start, end, sent);
    TakeFilms(s, start, end, film, f, sent);
    Regroup(dropped, sent, x, y, s.Take(start, end).audio);
  }

  lemma {:induction false} TakeFilms(s: Sound, start: int, end: int, film: Film, f: Segment, sent: seq<Coded>)
    requires Sent(film) == Payloads(sent) && AudioTiles(film) && AudioEnd(film) == s.pos
    requires s.pos >= 0 || (sent == [] && s.pos == -1)
    requires f.Fragment? && f.audio == s.Track(start, end)
    ensures var all := Film(film, f);
      && Sent(all) == Payloads(sent + s.audio[s.Dropped(start, end)..s.Taken(end)])
      && AudioTiles(all) && AudioEnd(all) == s.Take(start, end).pos
  {
    var d, t := s.Dropped(start, end), s.Taken(end);
    PayloadsMore(sent, s.audio[d..t]);
    assert d == t ==> s.audio[d..t] == [] && sent + [] == sent;
  }

  lemma {:induction false} InitAudio(s: Sound, start: int, film: Film, i: Segment,
                                     heard: seq<Coded>, dropped: seq<Coded>, sent: seq<Coded>)
    requires Split(s, start, film, heard, dropped, sent) && i.Init?
    ensures Split(s, start, Film(film, i), heard, dropped, sent)
  {
    assert Sent(film) + [] == Sent(film);
  }

  lemma {:induction false} CutSplit(m: Mux, film: Film, heard: seq<Coded>, end: int, dropped: seq<Coded>,
                                    sent: seq<Coded>)
    returns (x: seq<Coded>, y: seq<Coded>)
    requires m.withAudio && m.Ready() && m.frag != []
    requires Split(m.sound, m.start, film, heard, dropped, sent)
    ensures Split(m.sound.Take(m.start, end), m.start, CutFilm(m, film, end), heard, dropped + x, sent + y)
  {
    var all := CutFilm(m, film, end);
    if !m.inited { InitAudio(m.sound, m.start, film, all.before.out, heard, dropped, sent); }
    x, y := TakeSplits(m.sound, m.start, end, all.before, all.out, heard, dropped, sent);
  }

  lemma {:induction false} CutAudio(m: Mux, film: Film, heard: seq<Coded>, end: int)
    requires m.withAudio && m.Ready() && m.frag != [] && m.started && AudioInStep(m, film, heard)
    ensures AudioInStep(m.Cut(end), CutFilm(m, film, end), heard)
  {
    var dropped, sent :| Split(m.sound, m.start, film, heard, dropped, sent);
    var x, y := CutSplit(m, film, heard, end, dropped, sent);
    Witness(m.Cut(end), CutFilm(m, film, end), heard, dropped + x, sent + y);
  }

  lemma {:induction false} Witness(m: Mux, film: Film, heard: seq<Coded>, dropped: seq<Coded>, sent: seq<Coded>)
    requires Split(m.sound, m.start, film, heard, dropped, sent) && m.started
    ensures AudioInStep(m, film, heard)
  {
  }

  /** m and n differ in nothing that matters to audio. */
  lemma {:induction false} SameAudio(m: Mux, n: Mux, film: Film, heard: seq<Coded>)
    requires AudioInStep(m, film, heard) && m.sound == n.sound
    requires if m.started then n.started && n.start == m.start else true
    ensures AudioInStep(n, film, heard)
  {
    var dropped, sent :| Split(m.sound, m.start, film, heard, dropped, sent) && (dropped + sent != [] ==> m.started);
    if !m.started { assert dropped == [] && sent == []; }
    assert Split(n.sound, n.start, film, heard, dropped, sent);
  }

  lemma {:induction false} PushAudio(m: Mux, film: Film, heard: seq<Coded>, u: Unit)
    requires m.withAudio && m.Valid() && AudioInStep(m, film, heard)
    ensures AudioInStep(m.Push(u), film.Plus(m.PushSegments(u)), heard)
  {
    if !m.Skips(u) {
      var m' := if m.started then m else m.(started := true, start := u.pts);
      SameAudio(m, m', film, heard);
      if m'.Cuts(u) {
        CutAudio(m', film, heard, u.pts);
        CutFilmIs(m', film, u.pts);
        SameAudio(m'.Cut(u.pts), m.Push(u), CutFilm(m', film, u.pts), heard);
      } else {
        SameAudio(m', m.Push(u), film, heard);
      }
    }
  }

  lemma {:induction false} HearMore(m: Mux, n: Mux, film: Film, heard: seq<Coded>, coded: seq<Coded>)
    requires AudioInStep(m, film, heard) && n == m.(sound := m.sound.(audio := m.sound.audio + coded))
    ensures AudioInStep(n, film, heard + coded)
  {
    var dropped, sent :| Split(m.sound, m.start, film, heard, dropped, sent) && (dropped + sent != [] ==> m.started);
    assert dropped + sent + (m.sound.audio + coded) == heard + coded;
    assert Split(n.sound, n.start, film, heard + coded, dropped, sent);
  }

  lemma {:induction false} WriteAudio(w: Recording, heard: seq<Coded>, s: Sample, coded: seq<Coded>)
    requires w.m.withAudio && w.m.Valid() && AudioInStep(w.m, w.film, heard)
    ensures AudioInStep(w.m.Write(s, coded), w.film.Plus(w.m.WriteSegments(s)),
                        heard + if s.isVideo then [] else coded)
  {
    var m, film := w.m, w.film;
    assert heard + [] == heard;
    if !s.isVideo {
      HearMore(m, m.Write(s, coded), film, heard, coded);
    } else if m.GoesOn(s) {
      SameAudio(m, m.Write(s, coded), film, heard);
    } else {
      if m.cur.Some? { PushAudio(m, film, heard, m.cur.value); }
      var m' := if m.cur.Some? then m.Push(m.cur.value) else m;
      SameAudio(m', m.Write(s, coded), film.Plus(m.WriteSegments(s)), heard);
    }
  }

  lemma {:induction false} RunAudio(ms: int, h: seq<Sample>, coded: nat -> seq<Coded>, n: nat)
    requires n <= |h|
    ensures var w := Run(ms, true, h, coded, n); AudioInStep(w.m, w.film, Heard(h, coded, n))
  {
    if n == 0 {
      var w := Run(ms, true, h, coded, 0);
      assert Split(w.m.sound, w.m.start, w.film, [], [], []);
    } else {
      RunAudio(ms, h, coded, n - 1);
      SettingsStay(ms, true, h, coded, n - 1);
      WriteAudio(Run(ms, true, h, coded, n - 1), Heard(h, coded, n - 1), h[n - 1], coded(n - 1));
    }
  }

  /** Whatever the video does, a recording's audio is what was heard, in
      order and without a hole: its timeline starts at the first unit not
      from before the recording's start and advances by AacFrame a unit. */
  lemma {:induction false} AudioIsKept(ms: int, h: seq<Sample>, coded: nat -> seq<Coded>)
    ensures AudioInStep(Run(ms, true, h, coded, |h|).m.Flush(), Whole(ms, true, h, coded), Heard(h, coded, |h|))
  {
    RunAudio(ms, h, coded, |h|);
    SettingsStay(ms, true, h, coded, |h|);
    var w, heard := Run(ms, true, h, coded, |h|), Heard(h, coded, |h|);
    var m := w.m.Filed();
    var segs := if w.m.cur.Some? then w.m.PushSegments(w.m.cur.value) else [];
    if w.m.cur.Some? {
      PushAudio(w.m, w.film, heard, w.m.cur.value);
      SameAudio(w.m.Push(w.m.cur.value), m, w.film.Plus(segs), heard);
    }
    PlusTwice(w.film, segs, m.EndSegments());
    if m.frag != [] {
      CutAudio(m, w.film.Plus(segs), heard, m.FlushEnd());
      CutFilmIs(m, w.film.Plus(segs), m.FlushEnd());
    }
  }
}
