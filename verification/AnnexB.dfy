/** The H.264 byte stream (Annex B of ITU-T H.264) and its splitting into NAL
    units (internal/camera/sample.go). */

module AnnexB {
  import opened Bytes

  /** NAL units, each behind a start code of four bytes (wide) or three. */
  datatype Units = End | Unit(wide: bool, nal: seq<byte>, rest: Units)
  {
    function Code(): seq<byte>
      requires Unit?
    {
      if wide then [0, 0, 0, 1] else [0, 0, 1]
    }

    /** The byte stream. */
    function Stream(): seq<byte> {
      if End? then [] else Code() + nal + rest.Stream()
    }

    function Nals(): seq<seq<byte>> {
      if End? then [] else [nal] + rest.Nals()
    }

    function Weight(): nat {
      if End? then 0 else |nal| + rest.Weight()
    }

    predicate NoneEmpty() { Unit? ==> nal != [] && rest.NoneEmpty() }

    ghost predicate NoneBroken() { Unit? ==> !HasCode(nal) && rest.NoneBroken() }

    /** A zero before a three-byte code would be taken as the code's. */
    predicate Trails() {
      Unit? && nal != [] && nal[|nal| - 1] == 0 && rest.Unit? && !rest.wide
    }

    predicate NoneTrails() { Unit? ==> !Trails() && rest.NoneTrails() }
  }

  /** Whether a start code lies within a NAL. */
  ghost predicate HasCode(nal: seq<byte>) {
    exists j :: 0 <= j < |nal| && CodeAt(nal, j) == 3
  }

  /** The length of the start code at i; 0 for none. */
  function CodeAt(data: seq<byte>, i: nat): nat {
    if i + 2 >= |data| || data[i] != 0 || data[i + 1] != 0 then 0
    else if data[i + 2] == 1 then 3
    else if i + 3 < |data| && data[i + 2] == 0 && data[i + 3] == 1 then 4
    else 0
  }

  /** Where the NALs begin, scanning from i. */
  function Starts(data: seq<byte>, i: nat): (r: seq<nat>)
    decreases |data| - i
    ensures forall k :: 0 <= k < |r| ==> i + 3 <= r[k] <= |data|
  {
    if i + 2 >= |data| then []
    else if CodeAt(data, i) > 0 then [i + CodeAt(data, i)] + Starts(data, i + CodeAt(data, i))
    else Starts(data, i + 1)
  }

  /** Where a NAL ends, the next one starting at next: before a code of three
      bytes, or four when a zero stands before those. */
  function EndBefore(data: seq<byte>, next: nat): nat
    requires 3 <= next <= |data|
  {
    if next >= 4 && data[next - 4] == 0 then next - 4 else next - 3
  }

  /** The NAL that begins at the k-th start, if not empty. */
  function Piece(data: seq<byte>, starts: seq<nat>, k: nat): seq<seq<byte>>
    requires k < |starts| && forall i :: 0 <= i < |starts| ==> 3 <= starts[i] <= |data|
  {
    var e := if k + 1 < |starts| then EndBefore(data, starts[k + 1]) else |data|;
    if e > starts[k] then [data[starts[k]..e]] else []
  }

  /** The NALs that begin at the k-th start and later. */
  function Pieces(data: seq<byte>, starts: seq<nat>, k: nat): seq<seq<byte>>
    requires k <= |starts| && forall i :: 0 <= i < |starts| ==> 3 <= starts[i] <= |data|
    decreases |starts| - k
  {
    if k == |starts| then [] else Piece(data, starts, k) + Pieces(data, starts, k + 1)
  }

  /** The NALs that begin before the k-th start. */
  function Before(data: seq<byte>, starts: seq<nat>, k: nat): seq<seq<byte>>
    requires k <= |starts| && forall i :: 0 <= i < |starts| ==> 3 <= starts[i] <= |data|
  {
    if k == 0 then [] else Before(data, starts, k - 1) + Piece(data, starts, k - 1)
  }

  lemma {:induction false} Associate<T>(a: seq<T>, b: seq<T>, c: seq<T>)
    ensures a + (b + c) == a + b + c
  {
  }

  lemma {:induction false} BeforeAndAfter(data: seq<byte>, starts: seq<nat>, k: nat)
    requires k <= |starts| && forall i :: 0 <= i < |starts| ==> 3 <= starts[i] <= |data|
    ensures Before(data, starts, k) + Pieces(data, starts, k) == Pieces(data, starts, 0)
  {
    if k > 0 {
      BeforeAndAfter(data, starts, k - 1);
      Associate(Before(data, starts, k - 1), Piece(data, starts, k - 1), Pieces(data, starts, k));
    }
  }

  function Split(data: seq<byte>): seq<seq<byte>> {
    Pieces(data, Starts(data, 0), 0)
  }

  /** The splitter as two loops: the starts, then the NALs between them. */
  method SplitNals(data: seq<byte>) returns (nals: seq<seq<byte>>)
    ensures nals == Split(data)
  {
    var starts := FindStarts(data);
    nals := [];
    var k := 0;
    while k < |starts|
      invariant 0 <= k <= |starts|
      invariant nals == Before(data, starts, k)
    {
      var e := |data|;
      if k + 1 < |starts| {
        e := starts[k + 1] - 3;
        if e >= 1 && data[e - 1] == 0 { e := e - 1; }
      }
      assert e == if k + 1 < |starts| then EndBefore(data, starts[k + 1]) else |data|;
      if e > starts[k] { nals := nals + [data[starts[k]..e]]; }
      k := k + 1;
    }
    BeforeAndAfter(data, starts, k);
  }

  /** Every start code, each found past the one before. */
  method FindStarts(data: seq<byte>) returns (starts: seq<nat>)
    ensures starts == Starts(data, 0)
  {
    starts := [];
    var i := 0;
    while i + 2 < |data|
      invariant starts + Starts(data, i) == Starts(data, 0)
    {
      ghost var n := CodeAt(data, i);
      if n > 0 { Associate(starts, [i + n], Starts(data, i + n)); }
      if data[i] != 0 || data[i + 1] != 0 {
        i := i + 1;
      } else if data[i + 2] == 1 {
        starts := starts + [i + 3];
        i := i + 3;
      } else if i + 3 < |data| && data[i + 2] == 0 && data[i + 3] == 1 {
        starts := starts + [i + 4];
        i := i + 4;
      } else {
        i := i + 1;
      }
    }
    assert starts + [] == starts;
  }
}

module AnnexBProofs {
  import opened Bytes
  import opened AnnexB

  /** The units of u lie in data from i to its end. */
  ghost predicate Laid(data: seq<byte>, i: nat, u: Units)
    decreases u
  {
    if u.End? then i == |data|
    else
      var s := i + |u.Code()|;
      && s + |u.nal| <= |data|
      && data[i] == 0 && data[i + 1] == 0
      && (if u.wide then data[i + 2] == 0 && data[i + 3] == 1 else data[i + 2] == 1)
      && (forall k :: s <= k < s + |u.nal| ==> data[k] == u.nal[k - s])
      && Laid(data, s + |u.nal|, u.rest)
  }

  lemma {:induction false} StreamLaid(p: seq<byte>, u: Units)
    ensures Laid(p + u.Stream(), |p|, u)
    decreases u
  {
    if u.Unit? {
      var c := u.Code();
      StreamLaid(p + c + u.nal, u.rest);
      assert p + c + u.nal + u.rest.Stream() == p + (c + u.nal + u.rest.Stream());
    }
  }

  /** Where the NALs of u begin. */
  function Marks(u: Units, i: nat): seq<nat> {
    if u.End? then [] else [i + |u.Code()|] + Marks(u.rest, i + |u.Code()| + |u.nal|)
  }

  function Full(u: Units): seq<seq<byte>> {
    if u.End? then [] else (if u.nal == [] then [] else [u.nal]) + Full(u.rest)
  }

  lemma {:induction false} NoCodeInNal(data: seq<byte>, i: nat, u: Units, j: nat)
    requires Laid(data, i, u) && u.Unit? && !HasCode(u.nal) && !u.Trails()
    requires i + |u.Code()| <= j < i + |u.Code()| + |u.nal|
    ensures CodeAt(data, j) == 0
  {
    var s := i + |u.Code()|;
    var e := s + |u.nal|;
    if j + 2 < e {
      assert CodeAt(u.nal, j - s) != 3;
      if j + 3 < e { assert CodeAt(u.nal, j + 1 - s) != 3; }
    }
  }

  lemma {:induction false} SkipTo(data: seq<byte>, j: nat, e: nat)
    requires j <= e && forall p :: j <= p < e ==> CodeAt(data, p) == 0
    ensures Starts(data, j) == Starts(data, e)
    decreases e - j
  {
    if j < e && j + 2 < |data| { SkipTo(data, j + 1, e); }
  }

  lemma {:induction false} NalSkipped(data: seq<byte>, i: nat, u: Units)
    requires Laid(data, i, u) && u.Unit? && !HasCode(u.nal) && !u.Trails()
    ensures Starts(data, i + |u.Code()|) == Starts(data, i + |u.Code()| + |u.nal|)
  {
    var s := i + |u.Code()|;
    forall j | s <= j < s + |u.nal| ensures CodeAt(data, j) == 0 { NoCodeInNal(data, i, u, j); }
    SkipTo(data, s, s + |u.nal|);
  }

  lemma {:induction false} StartsAre(data: seq<byte>, i: nat, u: Units)
    requires Laid(data, i, u) && u.NoneBroken() && u.NoneTrails()
    ensures Starts(data, i) == Marks(u, i)
    decreases u
  {
    if u.Unit? {
      var s := i + |u.Code()|;
      NalSkipped(data, i, u);
      StartsAre(data, s + |u.nal|, u.rest);
    }
  }

  ghost predicate InBounds(data: seq<byte>, starts: seq<nat>) {
    forall k :: 0 <= k < |starts| ==> 3 <= starts[k] <= |data|
  }

  lemma {:induction false} SliceIs(data: seq<byte>, s: nat, nal: seq<byte>)
    requires s + |nal| <= |data| && forall k :: s <= k < s + |nal| ==> data[k] == nal[k - s]
    ensures data[s..s + |nal|] == nal
  {
  }

  lemma {:induction false} PieceIs(data: seq<byte>, i: nat, u: Units, starts: seq<nat>, k: nat)
    requires Laid(data, i, u) && u.Unit? && !u.Trails() && InBounds(data, starts)
    requires k < |starts| && starts[k] == i + |u.Code()|
    requires |starts| == k + 1 <==> u.rest.End?
    requires u.rest.Unit? ==> k + 1 < |starts| && starts[k + 1] == i + |u.Code()| + |u.nal| + |u.rest.Code()|
    ensures Piece(data, starts, k) == if u.nal == [] then [] else [u.nal]
  {
    var s := i + |u.Code()|;
    SliceIs(data, s, u.nal);
  }

  lemma {:induction false} PiecesAre(data: seq<byte>, i: nat, u: Units, p: seq<nat>)
    requires Laid(data, i, u) && u.NoneTrails() && InBounds(data, p + Marks(u, i))
    ensures Pieces(data, p + Marks(u, i), |p|) == Full(u)
    decreases u
  {
    if u.Unit? {
      var starts := p + Marks(u, i);
      var e := i + |u.Code()| + |u.nal|;
      assert starts[|p|] == i + |u.Code()|;
      assert |starts| == |p| + 1 + |Marks(u.rest, e)|;
      if u.rest.Unit? { assert starts[|p| + 1] == Marks(u.rest, e)[0]; }
      PieceIs(data, i, u, starts, |p|);
      assert starts == p + [i + |u.Code()|] + Marks(u.rest, e);
      PiecesAre(data, e, u.rest, p + [i + |u.Code()|]);
    }
  }

  lemma {:induction false} SplitIsFull(u: Units)
    requires u.NoneBroken() && u.NoneTrails()
    ensures Split(u.Stream()) == Full(u)
  {
    var data := u.Stream();
    StreamLaid([], u);
    assert [] + data == data;
    StartsAre(data, 0, u);
    assert [] + Marks(u, 0) == Marks(u, 0);
    PiecesAre(data, 0, u, []);
  }

  /** Before the first NAL found there is no code but its own. */
  lemma {:induction false} NoCodeBefore(data: seq<byte>, i: nat, p: nat)
    requires i <= p && (Starts(data, i) != [] ==> p + 4 < Starts(data, i)[0])
    ensures CodeAt(data, p) == 0
    decreases |data| - i
  {
    if i + 2 < |data| && CodeAt(data, i) == 0 && p > i { NoCodeBefore(data, i + 1, p); }
  }

  lemma {:induction false} AfterFirst(x: nat, more: seq<nat>, k: nat)
    requires k <= |more|
    ensures ([x] + more)[k + 1..] == more[k..] && (k > 0 ==> ([x] + more)[k] == more[k - 1])
  {
  }

  /** From where a NAL begins, the scan goes on as if from there. */
  lemma {:induction false} ScanGoesOn(data: seq<byte>, i: nat, k: nat)
    requires k < |Starts(data, i)|
    ensures Starts(data, i)[k + 1..] == Starts(data, Starts(data, i)[k])
    decreases |data| - i
  {
    var n := CodeAt(data, i);
    if n == 0 {
      ScanGoesOn(data, i + 1, k);
    } else {
      var more := Starts(data, i + n);
      AfterFirst(i + n, more, k);
      if k > 0 {
        ScanGoesOn(data, i + n, k - 1);
      }
    }
  }

  /** Nothing the splitter takes for a code lies between the NALs it finds. */
  lemma {:induction false} NoCodeBetween(data: seq<byte>, k: nat, p: nat)
    requires var r := Starts(data, 0);
      0 < k <= |r| && r[k - 1] <= p && (k < |r| ==> p + 4 < r[k])
    ensures CodeAt(data, p) == 0
  {
    ScanGoesOn(data, 0, k - 1);
    NoCodeBefore(data, Starts(data, 0)[k - 1], p);
  }

  lemma {:induction false} SliceIsClean(data: seq<byte>, s: nat, e: nat)
    requires s <= e <= |data|
    requires forall p :: s <= p && p + 3 <= e ==> CodeAt(data, p) == 0
    ensures !HasCode(data[s..e])
  {
    forall j | 0 <= j < e - s ensures CodeAt(data[s..e], j) != 3 {
      if s + j + 3 <= e { assert CodeAt(data, s + j) == 0; }
    }
  }

  lemma {:induction false} PieceIsClean(data: seq<byte>, k: nat)
    requires k < |Starts(data, 0)|
    ensures forall nal :: nal in Piece(data, Starts(data, 0), k) ==> nal != [] && !HasCode(nal)
  {
    var starts := Starts(data, 0);
    var s, e := starts[k], if k + 1 < |starts| then EndBefore(data, starts[k + 1]) else |data|;
    if e > s {
      forall p | s <= p && p + 3 <= e ensures CodeAt(data, p) == 0 {
        if k + 1 == |starts| || p + 4 < starts[k + 1] { NoCodeBetween(data, k + 1, p); }
      }
      SliceIsClean(data, s, e);
    }
  }

  lemma {:induction false} SplitIsClean(data: seq<byte>, k: nat)
    requires k <= |Starts(data, 0)|
    ensures forall nal :: nal in Pieces(data, Starts(data, 0), k) ==> nal != [] && !HasCode(nal)
    decreases |Starts(data, 0)| - k
  {
    if k < |Starts(data, 0)| {
      PieceIsClean(data, k);
      SplitIsClean(data, k + 1);
    }
  }

  /** The units the splitter sees: a zero before a three-byte code goes to the code. */
  function Seen(u: Units): (r: Units)
    ensures u.Unit? <==> r.Unit?
    ensures u.Unit? ==> r.wide == u.wide
  {
    if u.End? then End
    else
      var rest := Seen(u.rest);
      if u.Trails() then Unit(u.wide, u.nal[..|u.nal| - 1], Unit(true, rest.nal, rest.rest))
      else Unit(u.wide, u.nal, rest)
  }

  lemma {:induction false} PrefixUnbroken(nal: seq<byte>, n: nat)
    requires n <= |nal| && !HasCode(nal)
    ensures !HasCode(nal[..n])
  {
    forall j | 0 <= j < n ensures CodeAt(nal[..n], j) != 3 { assert CodeAt(nal, j) != 3; }
  }

  lemma {:induction false} MoveZero(c: seq<byte>, nal: seq<byte>, r: Units)
    requires nal != [] && nal[|nal| - 1] == 0 && r.Unit? && !r.wide
    ensures c + nal[..|nal| - 1] + Unit(true, r.nal, r.rest).Stream() == c + nal + r.Stream()
  {
    assert nal == nal[..|nal| - 1] + [0];
    assert [0] + (r.Code() + r.nal + r.rest.Stream()) == Unit(true, r.nal, r.rest).Stream();
  }

  lemma {:induction false} SeenStream(u: Units)
    requires u.NoneBroken()
    ensures Seen(u).Stream() == u.Stream()
    ensures Seen(u).NoneBroken() && Seen(u).NoneTrails()
    ensures Seen(u).Weight() <= u.Weight() && (!u.NoneTrails() ==> Seen(u).Weight() < u.Weight())
  {
    if u.Unit? {
      SeenStream(u.rest);
      if u.Trails() {
        MoveZero(u.Code(), u.nal, Seen(u.rest));
        PrefixUnbroken(u.nal, |u.nal| - 1);
      }
    }
  }

  function Sum(nals: seq<seq<byte>>): nat {
    if nals == [] then 0 else |nals[0]| + Sum(nals[1..])
  }

  lemma {:induction false} Sums(u: Units)
    ensures Sum(Full(u)) == u.Weight() == Sum(u.Nals())
  {
    if u.Unit? {
      Sums(u.rest);
      assert ([u.nal] + Full(u.rest))[1..] == Full(u.rest);
      assert ([u.nal] + u.rest.Nals())[1..] == u.rest.Nals();
      assert [] + Full(u.rest) == Full(u.rest);
    }
  }

  lemma {:induction false} NalsClean(u: Units)
    requires forall nal :: nal in u.Nals() ==> nal != [] && !HasCode(nal)
    ensures u.NoneEmpty() && u.NoneBroken()
  {
    if u.Unit? {
      assert u.nal in u.Nals();
      forall nal | nal in u.rest.Nals() ensures nal != [] && !HasCode(nal) { assert nal in u.Nals(); }
      NalsClean(u.rest);
    }
  }

  lemma {:induction false} FullNals(u: Units)
    requires u.NoneEmpty()
    ensures Full(u) == u.Nals()
  {
    if u.Unit? { FullNals(u.rest); }
  }

  /** A byte stream is split back into its NALs exactly when none is empty,
      none holds a start code and none ends in a zero before a code of three
      bytes. */
  lemma {:induction false} SplitsBackExactly(u: Units)
    ensures Split(u.Stream()) == u.Nals() <==> u.NoneEmpty() && u.NoneBroken() && u.NoneTrails()
  {
    if u.NoneEmpty() && u.NoneBroken() && u.NoneTrails() {
      SplitIsFull(u);
      FullNals(u);
    }
    if Split(u.Stream()) == u.Nals() {
      SplitIsClean(u.Stream(), 0);
      NalsClean(u);
      SeenStream(u);
      SplitIsFull(Seen(u));
      Sums(u);
      Sums(Seen(u));
    }
  }
}
