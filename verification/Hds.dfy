/** The HomeKit Data Stream (internal/hksv/hds.go): messages sealed in frames.
    The cipher is any that opens what it sealed (section 2.8 of RFC 8439). */

module HdsModel {
  import opened Wrappers
  import opened Bytes
  import opened OpackValues
  import opened OpackDecoder
  import opened OpackEncoder

  const MaxFrame := 0xf_ffff
  const TagSize := 16

  type Fields = map<seq<byte>, Value>

  /** One direction's key, as the two functions it gives: of a nonce, the
      frame's header and a plaintext or a ciphertext. */
  datatype Cipher = Cipher(seal: (seq<byte>, seq<byte>, seq<byte>) -> seq<byte>,
                           unseal: (seq<byte>, seq<byte>, seq<byte>) -> Option<seq<byte>>)

  ghost predicate Opens(c: Cipher) {
    forall n, h, p ::
      |c.seal(n, h, p)| == |p| + TagSize && c.unseal(n, h, c.seal(n, h, p)) == Some(p)
  }

  const U64 := 0x1_0000_0000_0000_0000

  /** Four zeros and the counter, which wraps at 64 bits. */
  function Nonce(n: nat): seq<byte> { [0, 0, 0, 0] + Le(n % U64, 8) }

  /** Type 1 and the plaintext's length, the high byte first. */
  function FrameHeader(n: nat): (h: seq<byte>)
    requires n <= MaxFrame
    ensures |h| == 4
  {
    [1, n / 0x1_0000, n / 0x100 % 0x100, n % 0x100]
  }

  /** The length a frame's header gives. */
  function Length(b: seq<byte>): nat
    requires |b| >= 4
  {
    b[1] as int * 0x1_0000 + b[2] as int * 0x100 + b[3] as int
  }

  /** A frame's header, what it seals and the bytes after it; None for no
      frame of at most limit bytes. */
  function TakeFrame(b: seq<byte>, limit: nat): Option<(seq<byte>, seq<byte>, seq<byte>)> {
    if |b| < 4 || b[0] != 1 then None
    else
      var n := Length(b);
      if n > limit || |b| < 4 + n + TagSize then None
      else Some((b[..4], b[4..4 + n + TagSize], b[4 + n + TagSize..]))
  }

  function DecodeDict(b: seq<byte>): Option<Fields> {
    match Decode(b, [])
    case Some(r) => if r.v.Dict? then Some(r.v.entries) else None
    case None => None
  }

  /** The header and the body of a message; a body may be missing. */
  function DecodePayload(p: seq<byte>): Option<(Fields, Fields)> {
    if |p| < 1 || |p| - 1 < p[0] then None
    else
      var n: nat := p[0] as int + 1;
      match DecodeDict(p[1..n])
      case None => None
      case Some(h) =>
        if |p| == n then Some((h, map[]))
        else match DecodeDict(p[n..])
          case None => None
          case Some(m) => Some((h, m))
  }

  /** The next plaintext and the bytes after its frame. */
  function Unseal(b: seq<byte>, c: Cipher, n: nat): (r: Option<(seq<byte>, seq<byte>)>)
    ensures r.Some? ==> |r.value.1| < |b|
  {
    match TakeFrame(b, MaxFrame)
    case None => None
    case Some((fh, sealed, rest)) =>
      match c.unseal(Nonce(n), fh, sealed)
      case None => None
      case Some(plain) => Some((plain, rest))
  }

  /** The plaintext of encoded parts; None when refused. */
  function Payload(h: seq<byte>, body: seq<byte>): Option<seq<byte>> {
    if |h| > 255 || 1 + |h| + |body| > MaxFrame then None else Some([|h|] + h + body)
  }

  function Frame(c: Cipher, n: nat, p: seq<byte>): seq<byte>
    requires |p| <= MaxFrame
  {
    FrameHeader(|p|) + c.seal(Nonce(n), FrameHeader(|p|), p)
  }

  datatype Message = Message(header: Fields, body: Fields)
  {
    ghost predicate Encodes() { Encodable(Dict(header)) && Encodable(Dict(body)) }

    ghost function Plain(): Option<seq<byte>>
      requires Encodes()
    {
      Payload(Encode(Dict(header)), Encode(Dict(body)))
    }

    /** Whether it is sent rather than refused. */
    ghost predicate Sends() { Encodes() && Plain().Some? }
  }

  lemma {:induction false} Tails(p: seq<byte>, a: seq<byte>, b: seq<byte>)
    requires a != b
    ensures p + a != p + b
  {
    assert (p + a)[|p|..] == a && (p + b)[|p|..] == b;
  }

  lemma {:induction false} LeDiffer(m: nat, n: nat, k: nat)
    requires m != n && m < Pow256(k) && n < Pow256(k)
    ensures Le(m, k) != Le(n, k)
  {
    LeRoundTrip(m, k);
    LeRoundTrip(n, k);
  }

  lemma {:induction false} Small(n: nat)
    requires n < U64
    ensures n % U64 == n
  {
  }

  /** No nonce comes twice while its 64-bit counter lasts. */
  lemma {:induction false} NoncesDiffer(m: nat, n: nat)
    requires m < n < U64
    ensures Nonce(m) != Nonce(n)
  {
    Small(m);
    Small(n);
    assert m < Pow256(8) && n < Pow256(8) by { PowValues(); }
    LeDiffer(m, n, 8);
    Tails([0, 0, 0, 0], Le(m % U64, 8), Le(n % U64, 8));
  }

  lemma {:induction false} DictDecodes(m: Fields)
    requires Encodable(Dict(m))
    ensures DecodeDict(Encode(Dict(m))) == Some(m)
  {
    RoundTrip(Dict(m), [], []);
    assert Encode(Dict(m)) + [] == Encode(Dict(m));
  }

  lemma {:induction false} PayloadDecodes(m: Message)
    requires m.Sends()
    ensures DecodePayload(m.Plain().value) == Some((m.header, m.body))
  {
    var h, b, p := Encode(Dict(m.header)), Encode(Dict(m.body)), m.Plain().value;
    DictDecodes(m.header);
    DictDecodes(m.body);
    assert p[1..1 + |h|] == h && p[1 + |h|..] == b;
    DictNotEmpty(m.body);
  }

  lemma {:induction false} DictNotEmpty(m: Fields)
    requires Encodable(Dict(m))
    ensures Encode(Dict(m)) != []
  {
  }

  lemma {:induction false} FrameTaken(h: seq<byte>, sealed: seq<byte>, rest: seq<byte>, n: nat)
    requires n <= MaxFrame && h == FrameHeader(n) && |sealed| == n + TagSize
    ensures TakeFrame(h + sealed + rest, MaxFrame) == Some((h, sealed, rest))
  {
    var b := h + sealed + rest;
    assert b[..4] == h && b[4..4 + n + TagSize] == sealed && b[4 + n + TagSize..] == rest;
    assert b[0] == 1 && b[1] == n / 0x1_0000 && b[2] == n / 0x100 % 0x100 && b[3] == n % 0x100;
  }

  /** Plaintexts in the order they are handed over; None is one refused. */
  datatype Queue = Done | Next(plain: Option<seq<byte>>, later: Queue)
  {
    predicate Fits() { Next? ==> (plain.Some? ==> |plain.value| <= MaxFrame) && later.Fits() }

    /** Those not refused. */
    function Sent(): Queue {
      if Done? then Done else if plain.Some? then Next(plain, later.Sent()) else later.Sent()
    }

    /** What they make on the wire, the first under nonce n. */
    function Wire(c: Cipher, n: nat): seq<byte>
      requires Fits()
    {
      if Done? then []
      else if plain.None? then later.Wire(c, n)
      else Frame(c, n, plain.value) + later.Wire(c, n + 1)
    }

    /** The nonces they use. */
    function Nonces(): nat {
      if Done? then 0 else (if plain.Some? then 1 else 0) + later.Nonces()
    }

    function Plus(x: Option<seq<byte>>): Queue {
      if Done? then Next(x, Done) else this.(later := later.Plus(x))
    }
  }

  /** The plaintexts read from b, the first under nonce n, up to its end or an error. */
  function UnsealAll(b: seq<byte>, c: Cipher, n: nat): Queue
    decreases |b|
  {
    match Unseal(b, c, n)
    case None => Done
    case Some((plain, rest)) => Next(Some(plain), UnsealAll(rest, c, n + 1))
  }

  lemma {:induction false} FrameUnseals(c: Cipher, n: nat, p: seq<byte>, rest: seq<byte>)
    requires Opens(c) && |p| <= MaxFrame
    ensures Unseal(Frame(c, n, p) + rest, c, n) == Some((p, rest))
  {
    var fh := FrameHeader(|p|);
    FrameTaken(fh, c.seal(Nonce(n), fh, p), rest, |p|);
  }

  /** Whatever is handed over, what is sent is read back, in order, sender and
      reader counting nonces in step. */
  lemma {:induction false} StreamReadsBack(c: Cipher, n: nat, q: Queue)
    requires Opens(c) && q.Fits()
    ensures UnsealAll(q.Wire(c, n), c, n) == q.Sent()
    decreases q
  {
    if q.Next? {
      StreamReadsBack(c, if q.plain.Some? then n + 1 else n, q.later);
      if q.plain.Some? { FrameUnseals(c, n, q.plain.value, q.later.Wire(c, n + 1)); }
    } else {
      assert Unseal([], c, n).None?;
    }
  }

  lemma {:induction false} Regroup(a: seq<byte>, b: seq<byte>, c: seq<byte>)
    ensures a + (b + c) == a + b + c && c + [] == c && [] + c == c
  {
  }

  /** Handing over one more adds its frame, under the next nonce, or nothing. */
  lemma {:induction false} WireGrows(c: Cipher, n: nat, q: Queue, x: Option<seq<byte>>)
    requires q.Fits() && (x.Some? ==> |x.value| <= MaxFrame)
    ensures q.Plus(x).Fits()
    ensures q.Plus(x).Wire(c, n) == q.Wire(c, n) + if x.None? then [] else Frame(c, n + q.Nonces(), x.value)
    decreases q
  {
    if q.Done? {
      Regroup([], [], if x.None? then [] else Frame(c, n, x.value));
    } else if q.plain.None? {
      WireGrows(c, n, q.later, x);
    } else {
      WireGrows(c, n + 1, q.later, x);
      Regroup(Frame(c, n, q.plain.value), q.later.Wire(c, n + 1),
              if x.None? then [] else Frame(c, n + 1 + q.later.Nonces(), x.value));
    }
  }

  /** Messages in order. */
  datatype Mail = NoMail | Mail(m: Message, later: Mail)
  {
    ghost function Plains(): Queue {
      if NoMail? then Done
      else Next(if m.Encodes() then m.Plain() else None, later.Plains())
    }

    /** Those not refused. */
    ghost function Sent(): Mail {
      if NoMail? then NoMail else if m.Sends() then Mail(m, later.Sent()) else later.Sent()
    }
  }

  /** The messages plaintexts hold, up to one that holds none. */
  function Decoded(q: Queue): Mail {
    if q.Done? || q.plain.None? then NoMail
    else match DecodePayload(q.plain.value)
      case None => NoMail
      case Some((h, m)) => Mail(Message(h, m), Decoded(q.later))
  }

  lemma {:induction false} PlainsDecode(mail: Mail)
    ensures mail.Plains().Fits() && Decoded(mail.Plains().Sent()) == mail.Sent()
  {
    if mail.Mail? {
      PlainsDecode(mail.later);
      if mail.m.Sends() { PayloadDecodes(mail.m); }
    }
  }

  /** Any messages sent are read back with their headers and bodies, in order. */
  lemma {:induction false} MessagesReadBack(c: Cipher, n: nat, mail: Mail)
    requires Opens(c)
    ensures mail.Plains().Fits()
    ensures Decoded(UnsealAll(mail.Plains().Wire(c, n), c, n)) == mail.Sent()
  {
    PlainsDecode(mail);
    StreamReadsBack(c, n, mail.Plains());
  }
}

module HdsClass {
  import opened Wrappers
  import opened Bytes
  import opened OpackValues
  import OpackClass
  import opened HdsModel

  /** One data stream connection: what it reads from, what it wrote. */
  class Conn {
    const read: Cipher
    const write: Cipher
    var input: seq<byte>
    var output: seq<byte>
    var readN: nat
    var writeN: nat

    constructor (read: Cipher, write: Cipher, input: seq<byte>)
      ensures this.read == read && this.write == write && this.input == input
      ensures output == [] && readN == 0 && writeN == 0
    {
      this.read, this.write, this.input := read, write, input;
      output, readN, writeN := [], 0, 0;
    }

    /** Writes a message, given its encoded parts. A refused one leaves no
        trace and takes no nonce. */
    method Send(h: seq<byte>, body: seq<byte>) returns (ok: bool)
      modifies this`output, this`writeN
      ensures match Payload(h, body)
        case None => !ok && output == old(output) && writeN == old(writeN)
        case Some(p) => ok && output == old(output) + Frame(write, old(writeN), p) && writeN == old(writeN) + 1
    {
      if |h| > 255 { return false; }
      var payload: seq<byte> := [|h|] + h + body;
      if |payload| > MaxFrame { return false; }
      var fh := FrameHeader(|payload|);
      output := output + (fh + write.seal(Nonce(writeN), fh, payload));
      writeN := writeN + 1;
      ok := true;
    }

    /** The next frame of at most limit bytes. */
    method ReadFrame(limit: nat) returns (r: Option<(seq<byte>, seq<byte>)>)
      modifies this`input
      ensures match TakeFrame(old(input), limit)
        case None => r.None?
        case Some((h, sealed, rest)) => r == Some((h, sealed)) && input == rest
    {
      if |input| < 4 { return None; }
      var header := input[..4];
      if header[0] != 1 { return None; }
      var n := Length(header);
      if n > limit || |input| < 4 + n + TagSize { return None; }
      var sealed := input[4..4 + n + TagSize];
      input := input[4 + n + TagSize..];
      r := Some((header, sealed));
    }

    /** The next message: its header and its body. */
    method Read() returns (r: Option<(Fields, Fields)>)
      modifies this`input, this`readN
      ensures match Unseal(old(input), read, old(readN))
        case None => r.None? && readN == old(readN)
        case Some((plain, rest)) => r == DecodePayload(plain) && input == rest && readN == old(readN) + 1
    {
      var f := ReadFrame(MaxFrame);
      if f.None? { return None; }
      var plain := read.unseal(Nonce(readN), f.value.0, f.value.1);
      if plain.None? { return None; }
      readN := readN + 1;
      r := Parts(plain.value);
    }

    method Parts(p: seq<byte>) returns (r: Option<(Fields, Fields)>)
      ensures r == DecodePayload(p)
    {
      if |p| < 1 || |p| - 1 < p[0] { return None; }
      var n: nat := p[0] as int + 1;
      var h := OpackClass.DecodeDict(p[1..n]);
      if h.None? { return None; }
      var m: Fields := map[];
      if |p| > n {
        var d := OpackClass.DecodeDict(p[n..]);
        if d.None? { return None; }
        m := d.value.0;
      }
      r := Some((h.value.0, m));
    }
  }
}

/** Which prepared session a new connection belongs to: the first its first
    frame opens with the key of. */
module HdsMatch {
  import opened Wrappers
  import opened Bytes
  import opened HdsModel

  datatype Prepared = Prepared(read: Cipher, write: Cipher, deadline: int)
  {
    predicate Late(now: int) { now > deadline }

    function Opens(h: seq<byte>, sealed: seq<byte>): Option<seq<byte>> { read.unseal(Nonce(0), h, sealed) }

    predicate Takes(h: seq<byte>, sealed: seq<byte>, now: int) { !Late(now) && Opens(h, sealed).Some? }
  }

  /** The sessions still pending after those before the k-th were tried: the
      late ones are forgotten. */
  function Kept(s: seq<Prepared>, k: nat, now: int): seq<Prepared>
    requires k <= |s|
  {
    if k == 0 then [] else Kept(s, k - 1, now) + (if s[k - 1].Late(now) then [] else [s[k - 1]])
  }

  /** The first session from the k-th on that takes the frame, or their number. */
  function First(s: seq<Prepared>, h: seq<byte>, sealed: seq<byte>, now: int, k: nat): (r: nat)
    requires k <= |s|
    ensures k <= r <= |s| && (r < |s| ==> s[r].Takes(h, sealed, now))
    ensures forall j :: k <= j < r ==> !s[j].Takes(h, sealed, now)
    decreases |s| - k
  {
    if k == |s| || s[k].Takes(h, sealed, now) then k else First(s, h, sealed, now, k + 1)
  }

  /** The pending sessions once those before the k-th were tried. */
  function Tried(s: seq<Prepared>, k: nat, now: int): seq<Prepared>
    requires k <= |s|
  {
    Kept(s, k, now) + s[k..]
  }

  lemma {:induction false} Around(a: seq<Prepared>, s: seq<Prepared>, k: nat)
    requires k < |s|
    ensures var p := a + s[k..];
      && p[|a|] == s[k] && p[..|a|] + p[|a| + 1..] == a + s[k + 1..]
      && p == a + [s[k]] + s[k + 1..] && a + [] == a
  {
  }

  /** Trying the k-th session: it is next, and a late one is taken out. */
  lemma {:induction false} TryOne(s: seq<Prepared>, k: nat, now: int)
    requires k < |s|
    ensures var p, i := Tried(s, k, now), |Kept(s, k, now)|;
      && i < |p| && p[i] == s[k] && p[..i] + p[i + 1..] == Kept(s, k, now) + s[k + 1..]
      && (s[k].Late(now) ==> Tried(s, k + 1, now) == p[..i] + p[i + 1..] && |Kept(s, k + 1, now)| == i)
      && (!s[k].Late(now) ==> Tried(s, k + 1, now) == p && |Kept(s, k + 1, now)| == i + 1)
  {
    Around(Kept(s, k, now), s, k);
  }

  /** A match from the i-th of the sessions pending on: the session that takes
      the frame, and those then pending. */
  function Search(p: seq<Prepared>, h: seq<byte>, sealed: seq<byte>, now: int, i: nat): (Option<Prepared>,
                  seq<Prepared>)
    decreases |p| - i
  {
    if i >= |p| then (None, p)
    else if p[i].Late(now) then Search(p[..i] + p[i + 1..], h, sealed, now, i)
    else if p[i].Takes(h, sealed, now) then (Some(p[i]), p[..i] + p[i + 1..])
    else Search(p, h, sealed, now, i + 1)
  }

  /** It gives the first session that takes the frame, those late before it
      being dropped. */
  lemma {:induction false} SearchFinds(s: seq<Prepared>, h: seq<byte>, sealed: seq<byte>, now: int, k: nat)
    requires k <= |s| && First(s, h, sealed, now, k) == First(s, h, sealed, now, 0)
    ensures var r := First(s, h, sealed, now, 0);
      Search(Tried(s, k, now), h, sealed, now, |Kept(s, k, now)|)
        == (if r == |s| then None else Some(s[r]), After(s, h, sealed, now))
    decreases |s| - k
  {
    if k < |s| {
      TryOne(s, k, now);
      if !s[k].Takes(h, sealed, now) { SearchFinds(s, h, sealed, now, k + 1); }
    }
  }

  lemma {:induction false} SearchAll(s: seq<Prepared>, h: seq<byte>, sealed: seq<byte>, now: int)
    ensures var k := First(s, h, sealed, now, 0);
      Search(s, h, sealed, now, 0) == (if k == |s| then None else Some(s[k]), After(s, h, sealed, now))
  {
    SearchFinds(s, h, sealed, now, 0);
    assert Tried(s, 0, now) == s;
  }

  /** A session matched is no longer pending, no late one passed over is, and
      the others keep their places. */
  function After(s: seq<Prepared>, h: seq<byte>, sealed: seq<byte>, now: int): seq<Prepared> {
    var k := First(s, h, sealed, now, 0);
    Kept(s, k, now) + (if k < |s| then s[k + 1..] else [])
  }

  lemma {:induction false} KeptAreTimely(s: seq<Prepared>, k: nat, now: int)
    requires k <= |s|
    ensures forall p :: p in Kept(s, k, now) <==> p in s[..k] && !p.Late(now)
  {
    if k > 0 {
      KeptAreTimely(s, k - 1, now);
      assert s[..k] == s[..k - 1] + [s[k - 1]];
    }
  }

  /** A stream sealed under a prepared session, which no session before it
      opens, goes to that session; its first plaintext comes out of the match
      and the rest is read from the nonce after. */
  lemma {:induction false} StreamFindsItsSession(s: seq<Prepared>, k: nat, now: int, p: seq<byte>, later: Queue)
    requires k < |s| && !s[k].Late(now) && HdsModel.Opens(s[k].read)
    requires |p| <= MaxFrame && later.Fits()
    requires var (h, sealed) := (FrameHeader(|p|), s[k].read.seal(Nonce(0), FrameHeader(|p|), p));
      forall j :: 0 <= j < k ==> !s[j].Takes(h, sealed, now)
    ensures var wire := Next(Some(p), later).Wire(s[k].read, 0);
      var f := TakeFrame(wire, MaxFrame);
      && f.Some?
      && First(s, f.value.0, f.value.1, now, 0) == k
      && s[k].Opens(f.value.0, f.value.1) == Some(p)
      && UnsealAll(f.value.2, s[k].read, 1) == later.Sent()
  {
    var c, h := s[k].read, FrameHeader(|p|);
    FrameTaken(h, c.seal(Nonce(0), h, p), later.Wire(c, 1), |p|);
    StreamReadsBack(c, 1, later);
  }

  class DataStream {
    var pending: seq<Prepared>

    constructor ()
      ensures pending == []
    {
      pending := [];
    }

    /** The session of a first frame and its plaintext; its reader goes on
        from nonce 1. */
    method Match(h: seq<byte>, sealed: seq<byte>, now: int) returns (r: Option<(Prepared, seq<byte>)>)
      modifies this
      ensures var k := First(old(pending), h, sealed, now, 0);
        if k == |old(pending)| then r.None?
        else r.Some? && r.value.0 == old(pending)[k] && old(pending)[k].Opens(h, sealed) == Some(r.value.1)
      ensures pending == After(old(pending), h, sealed, now)
    {
      SearchAll(pending, h, sealed, now);
      var i := 0;
      while i < |pending|
        invariant Search(pending, h, sealed, now, i) == Search(old(pending), h, sealed, now, 0)
        decreases |pending| - i
      {
        var p := pending[i];
        if now > p.deadline {
          pending := pending[..i] + pending[i + 1..];
        } else {
          var plain := p.Opens(h, sealed);
          if plain.Some? {
            pending := pending[..i] + pending[i + 1..];
            return Some((p, plain.value));
          }
          i := i + 1;
        }
      }
      r := None;
    }
  }
}
