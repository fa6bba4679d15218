/** The VM-write compiler (internal/domusvm): bytecode to ops, ops to frames,
    frames to bytes, and what the sensor makes of them. */

module VmOps {
  import opened Wrappers
  import opened Bytes

  const ADDR_CONFIG := 0x8000_00c0
  const ADDR_TIMEOUT := 0x8000_00d8
  const TIMEOUT_MS := 0x2580
  const CHUNK := 64
  const BOOT_ENTRY := 8
  const REGISTERS := 0x8000_0000
  const MAX_WRITE := 100

  datatype Op = StartInit | Erase | Write(addr: nat, data: seq<byte>) | Boot(mode: nat, entry: nat) {
    function Encode(): seq<byte> {
      match this
      case StartInit => [0x80]
      case Erase => [0x88]
      case Write(addr, data) => [0x87] + Le(addr, 4) + [|data| % 256] + data
      case Boot(mode, entry) => [0x82] + Le(mode, 2) + Le(entry, 4)
    }

    /** What the op adds to the frame's flush counter. */
    function Size(): nat {
      match this
      case StartInit => 1
      case Erase => 1
      case Write(_, data) => 5 + |data|
      case Boot(_, _) => 5
    }

    /** The op fits the wire: Encode panics on longer data. */
    predicate Fits() {
      match this
      case Write(addr, data) => addr < U32 && |data| <= 0xff
      case Boot(mode, entry) => mode < 0x1_0000 && entry < U32
      case _ => true
    }
  }

  function EncodeAll(ops: seq<Op>): seq<byte> {
    if ops == [] then [] else ops[0].Encode() + EncodeAll(ops[1..])
  }

  /** A frame: the marker, then its ops. */
  function EncodeFrame(ops: seq<Op>): seq<byte> { [0x01] + EncodeAll(ops) }

  // What the sensor makes of a frame.

  function ParseOp(s: seq<byte>): Option<(Op, seq<byte>)>
    ensures var r := ParseOp(s); r.Some? ==> |r.value.1| < |s|
  {
    if s == [] then None
    else if s[0] == 0x80 then Some((StartInit, s[1..]))
    else if s[0] == 0x88 then Some((Erase, s[1..]))
    else if s[0] == 0x87 && |s| >= 6 && s[5] <= |s| - 6 then
      Some((Write(FromLe(s[1..5]), s[6..6 + s[5]]), s[6 + s[5]..]))
    else if s[0] == 0x82 && |s| >= 7 then Some((Boot(FromLe(s[1..3]), FromLe(s[3..7])), s[7..]))
    else None
  }

  function ParseAll(s: seq<byte>): Option<seq<Op>>
    decreases |s|
  {
    if s == [] then Some([])
    else match ParseOp(s)
      case None => None
      case Some((op, rest)) =>
        match ParseAll(rest)
        case None => None
        case Some(ops) => Some([op] + ops)
  }

  function ParseFrame(s: seq<byte>): Option<seq<Op>> {
    if s != [] && s[0] == 0x01 then ParseAll(s[1..]) else None
  }

  lemma {:induction false} ParseEncodedOp(op: Op, rest: seq<byte>)
    requires op.Fits()
    ensures ParseOp(op.Encode() + rest) == Some((op, rest))
  {
    PowValues();
    var s := op.Encode() + rest;
    match op {
      case Write(addr, data) =>
        LeRoundTrip(addr, 4);
        assert s[1..5] == Le(addr, 4);
        assert s[6..6 + |data|] == data;
        assert s[6 + |data|..] == rest;
      case Boot(mode, entry) =>
        LeRoundTrip(mode, 2);
        LeRoundTrip(entry, 4);
        assert s[1..3] == Le(mode, 2);
        assert s[3..7] == Le(entry, 4);
        assert s[7..] == rest;
      case _ =>
    }
  }

  lemma {:induction false} ParseEncoded(ops: seq<Op>)
    requires forall op :: op in ops ==> op.Fits()
    ensures ParseAll(EncodeAll(ops)) == Some(ops)
  {
    if ops != [] {
      ParseEncodedOp(ops[0], EncodeAll(ops[1..]));
      ParseEncoded(ops[1..]);
      assert [ops[0]] + ops[1..] == ops;
    }
  }

  /** A frame reads back as the ops it was made of. */
  lemma {:induction false} FrameRoundTrip(ops: seq<Op>)
    requires forall op :: op in ops ==> op.Fits()
    ensures ParseFrame(EncodeFrame(ops)) == Some(ops)
  {
    ParseEncoded(ops);
    assert EncodeFrame(ops)[1..] == EncodeAll(ops);
  }

  // The radio engine's own reading of a frame (internal/radio/engine.go).

  /** Ops counted from index i on, as countOps steps over them. */
  function CountFrom(p: seq<byte>, i: nat): nat
    decreases |p| - i
  {
    if i >= |p| then 0
    else if p[i] == 0x87 then
      if i + 5 >= |p| then 1 else 1 + CountFrom(p, i + 6 + p[i + 5])
    else if p[i] == 0x82 then 1 + CountFrom(p, i + 7)
    else 1 + CountFrom(p, i + 1)
  }

  method CountOps(p: seq<byte>) returns (ops: nat)
    ensures ops == CountFrom(p, 1)
  {
    ops := 0;
    var i := 1;
    while i < |p|
      invariant i >= 1 && ops + CountFrom(p, i) == CountFrom(p, 1)
      decreases |p| - i
    {
      var op := p[i];
      i := i + 1;
      if op == 0x87 {
        if i + 4 >= |p| { return ops + 1; }
        i := i + 5 + p[i + 4];
      } else if op == 0x82 {
        i := i + 6;
      }
      ops := ops + 1;
    }
  }

  lemma {:induction false} CountParsedFrom(p: seq<byte>, i: nat)
    requires i <= |p| && ParseAll(p[i..]).Some?
    ensures CountFrom(p, i) == |ParseAll(p[i..]).value|
    decreases |p| - i
  {
    if i < |p| {
      var s := p[i..];
      var rest := ParseOp(s).value.1;
      var j := |p| - |rest|;
      assert rest == p[j..];
      CountParsedFrom(p, j);
    }
  }

  /** Whatever frame the sensor can read, the engine counts its ops. */
  lemma {:induction false} CountsWhatIsParsed(p: seq<byte>)
    requires ParseFrame(p).Some?
    ensures CountFrom(p, 1) == |ParseFrame(p).value|
  {
    CountParsedFrom(p, 1);
  }
}

module VmFrames {
  import opened Wrappers
  import opened Bytes
  import opened VmOps

  function Weight(ops: seq<Op>): nat {
    if ops == [] then 0 else Weight(ops[..|ops| - 1]) + ops[|ops| - 1].Size()
  }

  function Concat(frames: seq<seq<Op>>): seq<Op> {
    if frames == [] then [] else Concat(frames[..|frames| - 1]) + frames[|frames| - 1]
  }

  /** A frame goes out with the op that takes it past the limit. */
  predicate Flushed(frame: seq<Op>) {
    frame != [] && Weight(frame[..|frame| - 1]) <= MAX_WRITE < Weight(frame)
  }

  /** fbxhome's flush rule: the frames are the ops in order, each but the last
      flushed by its own last op and by none before. */
  predicate FlushRule(frames: seq<seq<Op>>, ops: seq<Op>) {
    && Concat(frames) == ops
    && (forall k :: 0 <= k < |frames| - 1 ==> Flushed(frames[k]))
    && (frames != [] ==>
          var last := frames[|frames| - 1]; last != [] && Weight(last[..|last| - 1]) <= MAX_WRITE)
  }

  method SplitOps(ops: seq<Op>) returns (frames: seq<seq<Op>>)
    ensures FlushRule(frames, ops)
  {
    frames := [];
    var current: seq<Op> := [];
    var size := 0;
    for i := 0 to |ops|
      invariant size == Weight(current) <= MAX_WRITE
      invariant Concat(frames) + current == ops[..i]
      invariant forall k :: 0 <= k < |frames| ==> Flushed(frames[k])
    {
      assert (current + [ops[i]])[..|current|] == current;
      assert ops[..i + 1] == ops[..i] + [ops[i]];
      current := current + [ops[i]];
      size := size + ops[i].Size();
      if size > MAX_WRITE {
        ConcatPush(frames, current);
        frames := frames + [current];
        current, size := [], 0;
      }
    }
    assert ops[..|ops|] == ops;
    if |current| > 0 {
      ConcatPush(frames, current);
      WeightMonotone(current);
      frames := frames + [current];
    }
  }

  lemma {:induction false} WeightMonotone(ops: seq<Op>)
    requires ops != []
    ensures Weight(ops[..|ops| - 1]) <= Weight(ops)
  {
  }

  lemma {:induction false} ConcatPush(frames: seq<seq<Op>>, f: seq<Op>)
    ensures Concat(frames + [f]) == Concat(frames) + f
  {
    assert (frames + [f])[..|frames|] == frames;
  }

  lemma {:induction false} WeightPrefix(ops: seq<Op>, i: nat)
    requires i <= |ops|
    ensures Weight(ops[..i]) <= Weight(ops)
    ensures i < |ops| ==> Weight(ops[..i]) < Weight(ops)
    decreases |ops|
  {
    if i < |ops| {
      WeightPrefix(ops[..|ops| - 1], i);
      assert ops[..|ops| - 1][..i] == ops[..i];
    } else {
      assert ops[..i] == ops;
    }
  }

  lemma {:induction false} ConcatFirst(frames: seq<seq<Op>>)
    requires frames != []
    ensures Concat(frames) == frames[0] + Concat(frames[1..])
    decreases |frames|
  {
    var n := |frames| - 1;
    if n == 0 {
      assert frames[..0] == [] && frames[1..] == [];
    } else {
      ConcatFirst(frames[..n]);
      var mid := Concat(frames[1..][..n - 1]);
      assert frames[..n][1..] == frames[1..][..n - 1];
      assert (frames[0] + mid) + frames[n] == frames[0] + (mid + frames[n]);
    }
  }

  /** The rule leaves no choice: it gives one split of every op stream. */
  lemma {:induction false} FlushRuleUnique(f: seq<seq<Op>>, g: seq<seq<Op>>, ops: seq<Op>)
    requires FlushRule(f, ops) && FlushRule(g, ops)
    ensures f == g
    decreases |f|
  {
    if f != [] { FirstFrameOf(f, ops); }
    if g != [] { FirstFrameOf(g, ops); }
    if f != [] && g != [] {
      FirstFrameUnique(f[0], g[0], Concat(f[1..]), Concat(g[1..]), ops);
      FlushRuleUnique(f[1..], g[1..], Concat(f[1..]));
      assert f == [f[0]] + f[1..] && g == [g[0]] + g[1..];
    }
  }

  /** A first frame and what is left, as the rule has them. */
  predicate FirstFrame(first: seq<Op>, rest: seq<Op>, ops: seq<Op>) {
    && ops == first + rest && first != [] && Weight(first[..|first| - 1]) <= MAX_WRITE
    && (rest != [] ==> Weight(first) > MAX_WRITE)
  }

  lemma {:induction false} FirstFrameOf(f: seq<seq<Op>>, ops: seq<Op>)
    requires FlushRule(f, ops) && f != []
    ensures FirstFrame(f[0], Concat(f[1..]), ops)
    ensures FlushRule(f[1..], Concat(f[1..]))
  {
    ConcatFirst(f);
    if |f| > 1 {
      assert Flushed(f[0]);
      assert f[1..][|f[1..]| - 1] == f[|f| - 1];
    } else {
      assert f[1..] == [];
    }
  }

  lemma {:induction false} FirstFrameUnique(f: seq<Op>, g: seq<Op>, frest: seq<Op>, grest: seq<Op>, ops: seq<Op>)
    requires FirstFrame(f, frest, ops) && FirstFrame(g, grest, ops)
    ensures f == g && frest == grest
  {
    assert f == ops[..|f|] && g == ops[..|g|];
    if |f| < |g| {
      ShorterIsLight(f, g, ops);
    } else if |g| < |f| {
      ShorterIsLight(g, f, ops);
    }
    assert frest == ops[|f|..] && grest == ops[|g|..];
  }

  /** A start of the ops shorter than a frame that keeps the rule is not heavy
      enough to be flushed. */
  lemma {:induction false} ShorterIsLight(f: seq<Op>, g: seq<Op>, ops: seq<Op>)
    requires |f| < |g| <= |ops| && f == ops[..|f|] && g == ops[..|g|]
    requires Weight(g[..|g| - 1]) <= MAX_WRITE
    ensures Weight(f) <= MAX_WRITE
  {
    assert g[..|g| - 1][..|f|] == f;
    WeightPrefix(g[..|g| - 1], |f|);
  }
}

module VmInstall {
  import opened Wrappers
  import opened Bytes
  import opened VmOps
  import opened VmFrames

  /** The sensor's VM: its memory, program below REGISTERS and registers above,
      and the mode and entry it was started with. */
  datatype Vm = Vm(mem: map<nat, byte>, booted: Option<(nat, nat)>)

  function Put(mem: map<nat, byte>, addr: nat, data: seq<byte>): map<nat, byte> {
    mem + map a: nat | addr <= a < addr + |data| :: ByteAt(data, addr, a)
  }

  /** The byte of data written at addr that lands at a. */
  function ByteAt(data: seq<byte>, addr: nat, a: nat): byte
    requires addr <= a < addr + |data|
  {
    data[a - addr]
  }

  function Run(vm: Vm, op: Op): Vm {
    match op
    case StartInit => vm.(booted := None)
    case Erase => vm.(mem := map a | a in vm.mem && a >= REGISTERS :: vm.mem[a])
    case Write(addr, data) => vm.(mem := Put(vm.mem, addr, data))
    case Boot(mode, entry) => vm.(booted := Some((mode, entry)))
  }

  function RunAll(vm: Vm, ops: seq<Op>): Vm
    decreases |ops|
  {
    if ops == [] then vm else RunAll(Run(vm, ops[0]), ops[1..])
  }

  /** The sensor takes the frames in order; it refuses one it cannot read. */
  function Receive(vm: Vm, wire: seq<seq<byte>>): Option<Vm>
    decreases |wire|
  {
    if wire == [] then Some(vm)
    else match ParseFrame(wire[0])
      case None => None
      case Some(ops) => Receive(RunAll(vm, ops), wire[1..])
  }

  function Chunks(b: seq<byte>, offset: nat): seq<Op>
    decreases |b| - offset
  {
    if offset >= |b| then []
    else
      var end := if offset + CHUNK > |b| then |b| else offset + CHUNK;
      [Write(offset % U32, b[offset..end])] + Chunks(b, offset + CHUNK)
  }

  function Tail(conf: seq<byte>): seq<Op> {
    (if |conf| > 0 then [Write(ADDR_CONFIG, conf)] else [])
    + [Write(ADDR_TIMEOUT, Le(TIMEOUT_MS, 4)), Boot(0, BOOT_ENTRY)]
  }

  function InitSequence(b: seq<byte>, conf: seq<byte>): seq<Op> {
    [StartInit, Erase] + Chunks(b, 0) + Tail(conf)
  }

  method BuildInitSequence(b: seq<byte>, conf: seq<byte>) returns (ops: seq<Op>)
    ensures ops == InitSequence(b, conf)
  {
    ops := [StartInit, Erase];
    var offset := 0;
    while offset < |b|
      invariant ops + Chunks(b, offset) == [StartInit, Erase] + Chunks(b, 0)
      decreases |b| - offset
    {
      var end := offset + CHUNK;
      if end > |b| { end := |b|; }
      ops := ops + [Write(offset % U32, b[offset..end])];
      offset := offset + CHUNK;
    }
    if |conf| > 0 { ops := ops + [Write(ADDR_CONFIG, conf)]; }
    ops := ops + [Write(ADDR_TIMEOUT, Le(TIMEOUT_MS, 4))];
    ops := ops + [Boot(0, BOOT_ENTRY)];
  }

  /** The program memory holds b[..k] and nothing else; the registers are mem0's. */
  ghost predicate Upto(mem: map<nat, byte>, mem0: map<nat, byte>, b: seq<byte>, k: nat) {
    k <= |b| &&
    forall a: nat ::
      && (a in mem <==> a < k || (REGISTERS <= a && a in mem0))
      && (a < k ==> mem[a] == b[a])
      && (REGISTERS <= a && a in mem0 ==> mem[a] == mem0[a])
  }

  /** The register byte the init sequence leaves at a, given what was there. */
  function Register(mem0: map<nat, byte>, conf: seq<byte>, a: nat): Option<byte> {
    if ADDR_TIMEOUT <= a < ADDR_TIMEOUT + 4 then Some(Le(TIMEOUT_MS, 4)[a - ADDR_TIMEOUT])
    else if ADDR_CONFIG <= a < ADDR_CONFIG + |conf| then Some(conf[a - ADDR_CONFIG])
    else if a in mem0 then Some(mem0[a]) else None
  }

  /** The VM runs exactly b, from address 0, with its timeout and its dynamic
      configuration set. */
  ghost predicate Installed(vm: Vm, vm0: Vm, b: seq<byte>, conf: seq<byte>) {
    && vm.booted == Some((0, BOOT_ENTRY))
    && (forall a: nat | a < REGISTERS :: (a in vm.mem <==> a < |b|) && (a < |b| ==> vm.mem[a] == b[a]))
    && (forall a: nat | a >= REGISTERS ::
          Register(vm0.mem, conf, a) == if a in vm.mem then Some(vm.mem[a]) else None)
  }

  lemma {:induction false} RunAppend(vm: Vm, a: seq<Op>, b: seq<Op>)
    ensures RunAll(vm, a + b) == RunAll(RunAll(vm, a), b)
    decreases |a|
  {
    if a == [] {
      assert a + b == b;
    } else {
      assert (a + b)[1..] == a[1..] + b;
      RunAppend(Run(vm, a[0]), a[1..], b);
    }
  }

  /** A write changes its own addresses only. */
  lemma {:induction false} PutAt(mem: map<nat, byte>, addr: nat, data: seq<byte>, a: nat)
    ensures var m := Put(mem, addr, data);
      if addr <= a < addr + |data| then a in m && m[a] == data[a - addr]
      else (a in m <==> a in mem) && (a in mem ==> m[a] == mem[a])
  {
  }

  lemma {:induction false} ChunkUpto(mem: map<nat, byte>, mem0: map<nat, byte>, b: seq<byte>, offset: nat, end: nat)
    requires offset <= end <= |b| <= REGISTERS && Upto(mem, mem0, b, offset)
    ensures Upto(Put(mem, offset, b[offset..end]), mem0, b, end)
  {
    var m := Put(mem, offset, b[offset..end]);
    forall a: nat
      ensures (a in m <==> a < end || (REGISTERS <= a && a in mem0)) && (a < end ==> m[a] == b[a])
        && (REGISTERS <= a && a in mem0 ==> m[a] == mem0[a])
    {
      PutAt(mem, offset, b[offset..end], a);
    }
  }

  lemma {:induction false} RunChunks(vm: Vm, mem0: map<nat, byte>, b: seq<byte>, offset: nat)
    requires |b| <= REGISTERS
    requires Upto(vm.mem, mem0, b, if offset < |b| then offset else |b|)
    ensures var r := RunAll(vm, Chunks(b, offset)); Upto(r.mem, mem0, b, |b|) && r.booted == vm.booted
    decreases |b| - offset
  {
    if offset < |b| {
      var end := if offset + CHUNK > |b| then |b| else offset + CHUNK;
      var op := Write(offset % U32, b[offset..end]);
      assert offset % U32 == offset;
      var vm' := Run(vm, op);
      ChunkUpto(vm.mem, mem0, b, offset, end);
      RunChunks(vm', mem0, b, offset + CHUNK);
      assert ([op] + Chunks(b, offset + CHUNK))[1..] == Chunks(b, offset + CHUNK);
    }
  }

  lemma {:induction false} RunFew(vm: Vm, ops: seq<Op>)
    ensures |ops| == 1 ==> RunAll(vm, ops) == Run(vm, ops[0])
    ensures |ops| == 2 ==> RunAll(vm, ops) == Run(Run(vm, ops[0]), ops[1])
  {
    if |ops| == 2 {
      assert ops[1..][0] == ops[1] && ops[1..][1..] == [];
      assert RunAll(Run(vm, ops[0]), ops[1..]) == RunAll(Run(Run(vm, ops[0]), ops[1]), ops[1..][1..]);
    }
  }

  lemma {:induction false} TailMemory(mem: map<nat, byte>, mem0: map<nat, byte>, b: seq<byte>, conf: seq<byte>, a: nat)
    requires |b| <= REGISTERS && Upto(mem, mem0, b, |b|)
    ensures var m := Put(Put(mem, ADDR_CONFIG, conf), ADDR_TIMEOUT, Le(TIMEOUT_MS, 4));
      if a < REGISTERS then (a in m <==> a < |b|) && (a < |b| ==> m[a] == b[a])
      else Register(mem0, conf, a) == if a in m then Some(m[a]) else None
  {
    PutAt(mem, ADDR_CONFIG, conf, a);
    PutAt(Put(mem, ADDR_CONFIG, conf), ADDR_TIMEOUT, Le(TIMEOUT_MS, 4), a);
  }

  lemma {:induction false} RunTail(vm: Vm, vm0: Vm, b: seq<byte>, conf: seq<byte>)
    requires |b| <= REGISTERS && Upto(vm.mem, vm0.mem, b, |b|)
    ensures Installed(RunAll(vm, Tail(conf)), vm0, b, conf)
  {
    var dynamic := if |conf| > 0 then [Write(ADDR_CONFIG, conf)] else [];
    var last := [Write(ADDR_TIMEOUT, Le(TIMEOUT_MS, 4)), Boot(0, BOOT_ENTRY)];
    RunAppend(vm, dynamic, last);
    RunFew(vm, dynamic);
    RunFew(RunAll(vm, dynamic), last);
    var m := Put(Put(vm.mem, ADDR_CONFIG, conf), ADDR_TIMEOUT, Le(TIMEOUT_MS, 4));
    if conf == [] { assert Put(vm.mem, ADDR_CONFIG, conf) == vm.mem; }
    assert RunAll(vm, Tail(conf)) == Vm(m, Some((0, BOOT_ENTRY)));
    forall a: nat
      ensures if a < REGISTERS then (a in m <==> a < |b|) && (a < |b| ==> m[a] == b[a])
        else Register(vm0.mem, conf, a) == if a in m then Some(m[a]) else None
    {
      TailMemory(vm.mem, vm0.mem, b, conf, a);
    }
  }

  /** What running the sequence does to any sensor. */
  lemma {:induction false} InitSequenceInstalls(vm0: Vm, b: seq<byte>, conf: seq<byte>)
    requires |b| <= REGISTERS
    ensures Installed(RunAll(vm0, InitSequence(b, conf)), vm0, b, conf)
  {
    var head := [StartInit, Erase];
    RunAppend(vm0, head + Chunks(b, 0), Tail(conf));
    RunAppend(vm0, head, Chunks(b, 0));
    RunFew(vm0, head);
    RunChunks(RunAll(vm0, head), vm0.mem, b, 0);
    RunTail(RunAll(vm0, head + Chunks(b, 0)), vm0, b, conf);
  }

  lemma {:induction false} ChunksFit(b: seq<byte>, offset: nat)
    ensures forall op :: op in Chunks(b, offset) ==> op.Fits()
    decreases |b| - offset
  {
    if offset < |b| { ChunksFit(b, offset + CHUNK); }
  }

  function Wire(frames: seq<seq<Op>>): seq<seq<byte>> {
    seq(|frames|, i requires 0 <= i < |frames| => EncodeFrame(frames[i]))
  }

  /** Splitting, encoding and reading back change nothing to what is run. */
  lemma {:induction false} ReceiveFrames(vm: Vm, frames: seq<seq<Op>>)
    requires forall op :: op in Concat(frames) ==> op.Fits()
    ensures Receive(vm, Wire(frames)) == Some(RunAll(vm, Concat(frames)))
    decreases |frames|
  {
    if frames != [] {
      ConcatFirst(frames);
      FrameRoundTrip(frames[0]);
      RunAppend(vm, frames[0], Concat(frames[1..]));
      ReceiveFrames(RunAll(vm, frames[0]), frames[1..]);
      assert Wire(frames)[1..] == Wire(frames[1..]);
    }
  }

  /** The frames of a bytecode, on the wire, install exactly that bytecode,
      whatever the sensor's memory held; so do any frames the flush rule makes. */
  lemma {:induction false} FramesInstall(vm0: Vm, b: seq<byte>, conf: seq<byte>, frames: seq<seq<Op>>)
    requires |b| <= REGISTERS && |conf| <= 0xff
    requires FlushRule(frames, InitSequence(b, conf))
    ensures var r := Receive(vm0, Wire(frames)); r.Some? && Installed(r.value, vm0, b, conf)
  {
    ChunksFit(b, 0);
    ReceiveFrames(vm0, frames);
    InitSequenceInstalls(vm0, b, conf);
  }

  method Frames(b: seq<byte>, conf: seq<byte>) returns (wire: seq<seq<byte>>)
    requires |b| <= REGISTERS && |conf| <= 0xff
    ensures forall vm0 :: Receive(vm0, wire).Some? && Installed(Receive(vm0, wire).value, vm0, b, conf)
  {
    var ops := BuildInitSequence(b, conf);
    var frames := SplitOps(ops);
    wire := Wire(frames);
    forall vm0 ensures Receive(vm0, wire).Some? && Installed(Receive(vm0, wire).value, vm0, b, conf) {
      FramesInstall(vm0, b, conf, frames);
    }
  }

  // The ack mask: one bit an op.

  lemma {:induction false} FrameIsSlice(frames: seq<seq<Op>>, k: nat) returns (i: nat)
    requires k < |frames|
    ensures i + |frames[k]| <= |Concat(frames)| && Concat(frames)[i..i + |frames[k]|] == frames[k]
    decreases |frames|
  {
    var n := |frames| - 1;
    if k == n {
      i := |Concat(frames[..n])|;
    } else {
      i := FrameIsSlice(frames[..n], k);
      assert Concat(frames)[..|Concat(frames[..n])|] == Concat(frames[..n]);
      assert Concat(frames)[i..i + |frames[k]|] == Concat(frames[..n])[i..i + |frames[k]|];
    }
  }

  lemma {:induction false} TwoWeigh(ops: seq<Op>, k: nat)
    requires k + 1 < |ops|
    ensures Weight(ops) >= ops[k].Size() + ops[k + 1].Size()
  {
    WeightPrefix(ops, k + 2);
    assert ops[..k + 2][..k + 1] == ops[..k + 1] && ops[..k + 1][..k] == ops[..k];
  }

  /** Every chunk but the last is full. */
  lemma {:induction false} ChunksHeavy(b: seq<byte>, offset: nat, k: nat)
    requires k + 1 < |Chunks(b, offset)|
    ensures Chunks(b, offset)[k].Size() == 69
    decreases k
  {
    if k > 0 { ChunksHeavy(b, offset + CHUNK, k - 1); }
  }

  /** No frame holds more than six ops, seven with a dynamic configuration: two
      full chunks already fill one. */
  lemma {:induction false} FewOpsAFrame(b: seq<byte>, conf: seq<byte>, frames: seq<seq<Op>>, k: nat)
    requires FlushRule(frames, InitSequence(b, conf)) && k < |frames|
    ensures 1 <= |frames[k]| <= if conf == [] then 6 else 7
  {
    var ops := InitSequence(b, conf);
    var f := frames[k];
    var i := FrameIsSlice(frames, k);
    var n := |f| - 1;
    assert Weight(f[..n]) <= MAX_WRITE;
    var h := |Chunks(b, 0)|;
    var lo := if i < 2 then 2 else i;
    if lo + 1 < i + n && lo + 1 < 2 + h - 1 {
      ChunksHeavy(b, 0, lo - 2);
      ChunksHeavy(b, 0, lo - 1);
      assert ops[lo] == Chunks(b, 0)[lo - 2] && ops[lo + 1] == Chunks(b, 0)[lo - 1];
      assert f[..n][lo - i] == ops[lo] && f[..n][lo - i + 1] == ops[lo + 1];
      TwoWeigh(f[..n], lo - i);
      assert false;
    }
  }

  /** So the engine counts what the sensor acknowledges, one bit an op, and the
      mask of all of them fits its 32 bits. */
  lemma {:induction false} EngineCountsOps(b: seq<byte>, conf: seq<byte>, frames: seq<seq<Op>>, k: nat)
    requires |conf| <= 0xff
    requires FlushRule(frames, InitSequence(b, conf)) && k < |frames|
    ensures CountFrom(Wire(frames)[k], 1) == |frames[k]| 
    ensures 1 <= CountFrom(Wire(frames)[k], 1) <= if conf == [] then 6 else 7
  {
    ChunksFit(b, 0);
    var i := FrameIsSlice(frames, k);
    assert forall op :: op in frames[k] ==> op in InitSequence(b, conf);
    FrameRoundTrip(frames[k]);
    CountsWhatIsParsed(EncodeFrame(frames[k]));
    FewOpsAFrame(b, conf, frames, k);
  }
}
