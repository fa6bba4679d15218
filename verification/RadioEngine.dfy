/** The gateway side of the Domus radio protocol (internal/radio): one answer to
    each frame of a sensor, and the provisioning dialogue they make. */

module RadioModel {
  import opened Wrappers
  import opened Bytes
  import opened Managed
  import opened VmOps

  const WF_APP: byte := 0x01
  const WF_MANAGE_ANSWER: byte := 0x81
  const WF_STATUS: byte := 0x82
  const WF_TIME: byte := 0xc8
  const WF_READ_STATUS: byte := 0xcc
  const WF_BYTECODE: byte := 0xcd

  const FLAGS_MANAGE := 0x0547
  const FLAGS_COMMAND := 0x0d43
  const FLAGS_ACK := 0x0004
  const FLAGS_EVENT_ACK := 0x0544
  const FLAGS_DWS_ACK := 0x0084

  const READ_STATUS_ALL: byte := 0x78
  const QIARA_EPOCH := 1514764800
  const SENT_WINDOW := 256

  datatype Model = DWS | PIR | KPD | SRN

  /** A paired sensor. */
  datatype Sensor = Sensor(addr: nat, model: Model, systemIndex: byte, pins: seq<string>)

  datatype Step = Idle | ReadingStatus | WritingVM | SendingTime

  /** A sensor and where its provisioning dialogue stands. */
  datatype Node = Node(sensor: Sensor, step: Step, vm: seq<seq<byte>>, sentOps: nat, needTime: bool,
                       configSent: bool, lastReply: int)

  function NewNode(s: Sensor): Node { Node(s, Idle, [], 0, false, false, -1) }

  /** status & 0x10 and status & 0x40. */
  predicate NeedsTime(status: byte) { status / 0x10 % 2 == 1 }
  predicate NeedsBytecode(status: byte) { status / 0x40 % 2 == 1 }

  function Pow2(k: nat): (r: nat)
    ensures r >= 1
  {
    if k == 0 then 1 else 2 * Pow2(k - 1)
  }

  /** 1<<ops - 1 in 32 bits. */
  function Mask(ops: nat): nat { if ops < 32 then Pow2(ops) - 1 else U32 - 1 }

  function Config(s: Sensor, alarmSiren: nat): seq<byte> {
    if s.model.SRN? then [0x55, 0x06] else [0x55, 0x00, s.systemIndex] + Le(alarmSiren, 4)
  }

  /** '1'..'9' are 0..8, '0' is 10. */
  function KeypadDigit(c: char): byte { if c == '0' then 0x0a else (c as int - '1' as int) % 0x100 }

  predicate ValidPin(pin: string) { pin != "" && forall c :: c in pin ==> '0' <= c <= '9' }

  /** Two digits a byte, the low nibble first. */
  function Nibbles(pin: string): seq<byte>
    decreases |pin|
  {
    if pin == "" then []
    else if |pin| == 1 then [KeypadDigit(pin[0])]
    else [(KeypadDigit(pin[0]) + 0x10 * KeypadDigit(pin[1])) % 0x100] + Nibbles(pin[2..])
  }

  function CodeBody(pins: seq<string>): seq<byte> {
    if pins == [] then [] else [|pins[0]| % 0x100] + Nibbles(pins[0]) + CodeBody(pins[1..])
  }

  /** A byte count on two bytes, then each code: its length and its digits. */
  function KeypadCodes(pins: seq<string>): seq<byte> {
    Le(|CodeBody(pins)| % 0x1_0000, 2) + CodeBody(pins)
  }

  predicate ValidSensor(s: Sensor) { s.addr < U32 && forall pin :: pin in s.pins ==> ValidPin(pin) }

  /** What goes back to a sensor; config tells its config. */
  datatype Reply = Reply(flags: nat, wflags: byte, payload: seq<byte>, config: bool)

  const BARE_ACK := Reply(FLAGS_ACK, 0, [], false)

  datatype Event = UnknownSensor(addr: nat) | DeliveryFailed(addr: nat, counter: nat) | NoBytecode(addr: nat)
                 | Unhandled(addr: nat, wflags: byte)

  datatype Reaction = Reaction(node: Node, reply: Reply, events: seq<Event>)

  function AppAnswer(s: Sensor, p: seq<byte>): Reply
    requires ValidSensor(s)
  {
    if s.model.KPD? && |p| >= 2 && p[0] == 0x55 && p[1] == 0x09 then
      Reply(FLAGS_MANAGE, WF_APP, KeypadCodes(s.pins), false)
    else if s.model.DWS? then Reply(FLAGS_DWS_ACK, 0, [], false)
    else Reply(FLAGS_EVENT_ACK, 0, [], false)
  }

  /** The time if the sensor asked for it, then its config if it is not sent
      yet, else an ack. */
  function Finish(n: Node, now: int, alarmSiren: nat): (Node, Reply) {
    if n.needTime then
      (n.(step := SendingTime, needTime := false),
       Reply(FLAGS_MANAGE, WF_TIME, Le((now - QIARA_EPOCH) % U32, 4), false))
    else if n.configSent then (n.(step := Idle), BARE_ACK)
    else (n.(step := Idle, configSent := true), Reply(FLAGS_MANAGE, WF_APP, Config(n.sensor, alarmSiren), true))
  }

  function NextVM(n: Node): (Node, Reply)
    requires n.vm != []
  {
    (n.(vm := n.vm[1..], step := WritingVM, sentOps := CountFrom(n.vm[0], 1)),
     Reply(FLAGS_MANAGE, WF_BYTECODE, n.vm[0], false))
  }

  predicate StatusAnswer(rx: Frame) {
    rx.wflags == WF_MANAGE_ANSWER && |rx.payload| >= 10 && rx.payload[1] == READ_STATUS_ALL
  }

  predicate VmAck(rx: Frame) { rx.wflags == WF_MANAGE_ANSWER && |rx.payload| == 5 }

  /** Every op of the frame done: the mask is full. */
  predicate FullAck(rx: Frame, ops: nat) { VmAck(rx) && FromLe(rx.payload[..4]) == Mask(ops) }

  /** The reaction table: the one answer to a frame flagged Z. fetched is what
      the bytecode source gives for the firmware hash in it, if asked. */
  function React(n: Node, rx: Frame, now: int, fetched: Option<seq<seq<byte>>>, alarmSiren: nat): Reaction
    requires ValidSensor(n.sensor)
  {
    if rx.wflags == WF_STATUS then
      Reaction(n.(step := ReadingStatus, vm := []), Reply(FLAGS_MANAGE, WF_READ_STATUS, [READ_STATUS_ALL], false), [])
    else if n.step.ReadingStatus? && StatusAnswer(rx) then ReactToStatus(n, rx.payload[0], now, fetched, alarmSiren)
    else if n.step.WritingVM? && VmAck(rx) then
      if !FullAck(rx, n.sentOps) then Reaction(n.(step := Idle, vm := []), BARE_ACK, [])
      else
        var r := if n.vm != [] then NextVM(n) else Finish(n, now, alarmSiren);
        Reaction(r.0, r.1, [])
    else if n.step.SendingTime? && !rx.W() then
      var r := Finish(n, now, alarmSiren); Reaction(r.0, r.1, [])
    else if rx.wflags == WF_APP then Reaction(n, AppAnswer(n.sensor, rx.payload), [])
    else Reaction(n, BARE_ACK, [Unhandled(n.sensor.addr, rx.wflags)])
  }

  function ReactToStatus(n: Node, status: byte, now: int, fetched: Option<seq<seq<byte>>>, alarmSiren: nat): Reaction {
    var m := n.(needTime := NeedsTime(status));
    if NeedsBytecode(status) && fetched.Some? && fetched.value != [] then
      var r := NextVM(m.(vm := fetched.value, configSent := false));
      Reaction(r.0, r.1, [])
    else
      var r := Finish(m, now, alarmSiren);
      Reaction(r.0, r.1, if NeedsBytecode(status) then [NoBytecode(n.sensor.addr)] else [])
  }

  /** What a report about a lost frame needs to know. */
  datatype Sent = Sent(addr: nat, config: bool)

  datatype Result = Result(engine: Engine, send: seq<Frame>, events: seq<Event>)

  /** Counters wrap at 2^32. */
  function Succ(counter: nat): nat { if counter + 1 < U32 then counter + 1 else 0 }

  /** k frames before a counter; and how many frames before it k was used. */
  function Before(counter: nat, k: nat): nat
    requires k < U32
  {
    if k <= counter then counter - k else counter + U32 - k
  }

  datatype Engine = Engine(gateway: nat, counter: nat, alarmSiren: nat, nodes: map<nat, Node>, sent: map<nat, Sent>)
  {
    predicate Valid() {
      && gateway < U32 && counter < U32 && alarmSiren < U32
      && forall a :: a in nodes ==> nodes[a].sensor.addr == a && ValidSensor(nodes[a].sensor)
    }

    /** The counter taken by the next frame, to addr. */
    function Count(addr: nat, config: bool): Engine {
      this.(sent := (sent - {Before(counter, SENT_WINDOW)})[counter := Sent(addr, config)],
            counter := Succ(counter))
    }

    function Bare(addr: nat, flags: nat, wflags: byte, payload: seq<byte>): Frame {
      Frame(addr, gateway, 0, counter, gateway, flags, 0, 0, 0, wflags, payload)
    }

    /** A reply goes out: it acknowledges rx and belongs to the node's dialogue. */
    function Answer(n: Node, reply: Reply, rx: Frame): (Engine, Frame) {
      var a := n.sensor.addr;
      (Count(a, reply.config).(nodes := nodes[a := n.(lastReply := counter)]),
       Bare(a, reply.flags, reply.wflags, reply.payload).(ackDst := rx.src, ackCnt := rx.counter))
    }

    function Routed(addr: nat, payload: seq<byte>, config: bool): (Engine, Frame) {
      (Count(addr, config), Bare(addr, FLAGS_COMMAND, WF_APP, payload).(route := addr))
    }

    function Command(addr: nat, payload: seq<byte>): Result {
      if addr !in nodes then Result(this, [], [UnknownSensor(addr)])
      else var r := Routed(addr, payload, false); Result(r.0, [r.1], [])
    }

    function Receive(rx: Frame, now: int, fetched: Option<seq<seq<byte>>>): Result
      requires Valid()
    {
      if rx.Report() then
        if rx.Reason() == 0 then Result(this, [], []) else Lost(rx.ackCnt)
      else if rx.src !in nodes then Result(this, [], [UnknownSensor(rx.src)])
      else if !rx.Z() then Result(this, [], [])
      else
        var x := React(nodes[rx.src], rx, now, fetched, alarmSiren);
        var r := Answer(x.node, x.reply, rx);
        Result(r.0, [r.1], x.events)
    }

    function Lost(c: nat): Result {
      if c !in sent then Result(this, [], [])
      else
        var s := sent[c];
        var e := this.(sent := sent - {c});
        if s.addr !in nodes then Result(e, [], [])
        else
          var n := nodes[s.addr];
          var m := if s.config then n.(configSent := false) else n;
          var l := if n.lastReply == c then m.(step := Idle, vm := []) else m;
          Result(e.(nodes := nodes[s.addr := l]), [], [DeliveryFailed(s.addr, c)])
    }

    /** None: a keypad code is refused, and nothing changes. */
    function SetNode(s: Sensor): Option<Engine> {
      if exists pin :: pin in s.pins && !ValidPin(pin) then None
      else if s.addr in nodes then
        var known := nodes[s.addr];
        var changed := known.sensor.model != s.model || known.sensor.systemIndex != s.systemIndex;
        Some(this.(nodes := nodes[s.addr := known.(sensor := s, configSent := !changed && known.configSent)]))
      else Some(this.(nodes := nodes[s.addr := NewNode(s)]))
    }

    function RemoveNode(addr: nat): Engine { this.(nodes := nodes - {addr}) }

    function SetAlarmSiren(addr: nat): Engine {
      if addr == alarmSiren then this
      else this.(alarmSiren := addr,
                 nodes := map a | a in nodes ::
                   if nodes[a].sensor.model.SRN? then nodes[a] else nodes[a].(configSent := false))
    }

    /** A siren is asked for its state, which is also its config. */
    function StartOne(a: nat): Result {
      if a !in nodes || !nodes[a].sensor.model.SRN? then Result(this, [], [])
      else
        var n := nodes[a].(configSent := true);
        var t := this.(nodes := nodes[a := n]).Routed(a, Config(n.sensor, alarmSiren), true);
        Result(t.0, [t.1], [])
    }

    function StartOver(addrs: seq<nat>): Result
      decreases |addrs|
    {
      if addrs == [] then Result(this, [], [])
      else
        var r := StartOver(addrs[..|addrs| - 1]);
        var t := r.engine.StartOne(addrs[|addrs| - 1]);
        Result(t.engine, r.send + t.send, [])
    }
  }

  lemma {:induction false} StartPush(e: Engine, addrs: seq<nat>, a: nat)
    ensures var r := e.StartOver(addrs);
      var t := r.engine.StartOne(a);
      e.StartOver(addrs + [a]) == Result(t.engine, r.send + t.send, [])
  {
    assert (addrs + [a])[..|addrs|] == addrs;
  }

  predicate Increasing(order: seq<nat>) {
    forall i, j :: 0 <= i < j < |order| ==> order[i] < order[j]
  }

  /** order goes through all but todo, from the least on. */
  ghost predicate Sweeps(order: seq<nat>, all: set<nat>, todo: set<nat>) {
    && todo <= all && Increasing(order)
    && (forall a :: a in order <==> a in all && a !in todo)
    && (forall a, b :: a in order && b in todo ==> a < b)
  }

  lemma {:induction false} SweepOne(order: seq<nat>, all: set<nat>, todo: set<nat>, a: nat)
    requires Sweeps(order, all, todo) && a in todo && forall b :: b in todo ==> a <= b
    ensures Sweeps(order + [a], all, todo - {a})
  {
    forall i, j | 0 <= i < j < |order + [a]| ensures (order + [a])[i] < (order + [a])[j] {
      if j == |order| { assert order[i] in order; }
    }
  }
}

module RadioClass {
  import opened Wrappers
  import opened Bytes
  import opened Managed
  import opened VmOps
  import opened RadioModel

  lemma {:induction false} CodeBodyStep(body: seq<byte>, code: seq<byte>, pins: seq<string>, k: nat)
    requires k < |pins| && code == body + [|pins[k]| % 0x100] + Nibbles(pins[k])
    ensures code + CodeBody(pins[k + 1..]) == body + CodeBody(pins[k..])
  {
    var rest := pins[k..];
    assert rest[0] == pins[k] && rest[1..] == pins[k + 1..];
    var n := [|pins[k]| % 0x100] + Nibbles(pins[k]);
    assert (body + n) + CodeBody(rest[1..]) == body + (n + CodeBody(rest[1..]));
  }

  /** The keypad's code list, built byte by byte, nibble by nibble. */
  method BuildKeypadCodes(pins: seq<string>) returns (codes: seq<byte>)
    ensures codes == KeypadCodes(pins)
  {
    var body: seq<byte> := [];
    var k := 0;
    while k < |pins|
      invariant k <= |pins| && body + CodeBody(pins[k..]) == CodeBody(pins)
    {
      var code := AppendDigits(body + [|pins[k]| % 0x100], pins[k]);
      CodeBodyStep(body, code, pins, k);
      body := code;
      k := k + 1;
    }
    codes := Le(|body| % 0x1_0000, 2) + body;
  }

  function Pair(lo: char, hi: char): byte { (KeypadDigit(lo) + 0x10 * KeypadDigit(hi)) % 0x100 }

  lemma {:induction false} NibblesStep(done: seq<byte>, pin: string, i: nat)
    requires i < |pin|
    ensures i + 1 == |pin| ==> Nibbles(pin[i..]) == [KeypadDigit(pin[i])]
    ensures i + 1 < |pin| ==>
      done + Nibbles(pin[i..]) == done + [Pair(pin[i], pin[i + 1])] + Nibbles(pin[i + 2..])
  {
    var rest := pin[i..];
    if i + 1 < |pin| {
      assert rest[0] == pin[i] && rest[1] == pin[i + 1] && rest[2..] == pin[i + 2..];
      assert done + ([Pair(pin[i], pin[i + 1])] + Nibbles(rest[2..])) ==
        done + [Pair(pin[i], pin[i + 1])] + Nibbles(rest[2..]);
    }
  }

  method AppendDigits(start: seq<byte>, pin: string) returns (body: seq<byte>)
    ensures body == start + Nibbles(pin)
  {
    body := start;
    ghost var done, all := start, start + Nibbles(pin);
    assert pin[0..] == pin;
    for i := 0 to |pin|
      invariant i % 2 == 0 ==> body == done && done + Nibbles(pin[i..]) == all
      invariant i % 2 == 1 ==> body == done + [KeypadDigit(pin[i - 1])] && done + Nibbles(pin[i - 1..]) == all
    {
      var d := KeypadDigit(pin[i]);
      if i % 2 == 0 {
        body := body + [d];
      } else {
        NibblesStep(done, pin, i - 1);
        body := SetHigh(body, pin[i - 1], pin[i]);
        done := done + [Pair(pin[i - 1], pin[i])];
      }
    }
    if |pin| % 2 == 1 { NibblesStep(done, pin, |pin| - 1); }
  }

  /** The last byte, a low digit so far, takes its high one. */
  method SetHigh(body: seq<byte>, lo: char, hi: char) returns (out: seq<byte>)
    requires body != [] && body[|body| - 1] == KeypadDigit(lo)
    ensures out == body[..|body| - 1] + [Pair(lo, hi)]
  {
    var n := |body| - 1;
    var low, high: int := body[n], KeypadDigit(hi);
    out := body[n := (low + 0x10 * high) % 0x100];
  }

  class Engine {
    const gateway: nat
    var counter: nat
    var alarmSiren: nat
    var nodes: map<nat, Node>
    var sent: map<nat, Sent>

    function View(): RadioModel.Engine
      reads this
    {
      RadioModel.Engine(gateway, counter, alarmSiren, nodes, sent)
    }

    constructor (gateway: nat, alarmSiren: nat)
      ensures View() == RadioModel.Engine(gateway, 0, alarmSiren, map[], map[])
    {
      this.gateway, this.alarmSiren := gateway, alarmSiren;
      counter, nodes, sent := 0, map[], map[];
    }

    method NewFrame(addr: nat, flags: nat, wflags: byte, payload: seq<byte>, config: bool) returns (f: Frame)
      modifies `counter, `sent
      ensures View() == old(View()).Count(addr, config) && f == old(View()).Bare(addr, flags, wflags, payload)
    {
      f := Frame(addr, gateway, 0, counter, gateway, flags, 0, 0, 0, wflags, payload);
      sent := sent - {Before(counter, SENT_WINDOW)};
      sent := sent[counter := Sent(addr, config)];
      counter := Succ(counter);
    }

    method Answer(n: Node, reply: Reply, rx: Frame) returns (f: Frame)
      modifies this
      ensures (View(), f) == old(View()).Answer(n, reply, rx)
    {
      var a := n.sensor.addr;
      f := NewFrame(a, reply.flags, reply.wflags, reply.payload, reply.config);
      f := f.(ackDst := rx.src, ackCnt := rx.counter);
      nodes := nodes[a := n.(lastReply := f.counter)];
    }

    method SendRouted(addr: nat, payload: seq<byte>, config: bool) returns (f: Frame)
      modifies `counter, `sent
      ensures (View(), f) == old(View()).Routed(addr, payload, config)
    {
      f := NewFrame(addr, FLAGS_COMMAND, WF_APP, payload, config);
      f := f.(route := addr);
    }

    method Command(addr: nat, payload: seq<byte>) returns (send: seq<Frame>, events: seq<Event>)
      modifies `counter, `sent
      ensures Result(View(), send, events) == old(View()).Command(addr, payload)
    {
      if addr !in nodes { return [], [UnknownSensor(addr)]; }
      var f := SendRouted(addr, payload, false);
      return [f], [];
    }

    method Receive(rx: Frame, now: int, fetched: Option<seq<seq<byte>>>) returns (send: seq<Frame>, events: seq<Event>)
      requires View().Valid()
      modifies this
      ensures Result(View(), send, events) == old(View()).Receive(rx, now, fetched)
    {
      send, events := [], [];
      if rx.Report() {
        if rx.Reason() == 0 { return; }
        events := Lost(rx.ackCnt);
        return;
      }
      if rx.src !in nodes { return [], [UnknownSensor(rx.src)]; }
      if rx.Z() {
        var x := React(nodes[rx.src], rx, now, fetched, alarmSiren);
        var f := Answer(x.node, x.reply, rx);
        return [f], x.events;
      }
    }

    method Lost(c: nat) returns (events: seq<Event>)
      modifies `nodes, `sent
      ensures Result(View(), [], events) == old(View()).Lost(c)
    {
      if c !in sent { return []; }
      var s := sent[c];
      sent := sent - {c};
      if s.addr !in nodes { return []; }
      var n := nodes[s.addr];
      if s.config { n := n.(configSent := false); }
      if n.lastReply == c { n := n.(step := Idle, vm := []); }
      nodes := nodes[s.addr := n];
      return [DeliveryFailed(s.addr, c)];
    }

    method SetNode(s: Sensor) returns (ok: bool)
      modifies `nodes
      ensures ok <==> old(View()).SetNode(s).Some?
      ensures View() == if ok then old(View()).SetNode(s).value else old(View())
    {
      for i := 0 to |s.pins|
        invariant forall j :: 0 <= j < i ==> ValidPin(s.pins[j])
      {
        if !ValidPin(s.pins[i]) { return false; }
      }
      if s.addr in nodes {
        var n := nodes[s.addr];
        if n.sensor.model != s.model || n.sensor.systemIndex != s.systemIndex {
          n := n.(configSent := false);
        }
        nodes := nodes[s.addr := n.(sensor := s)];
      } else {
        nodes := nodes[s.addr := NewNode(s)];
      }
      ok := true;
    }

    method RemoveNode(addr: nat)
      modifies `nodes
      ensures View() == old(View()).RemoveNode(addr)
    {
      nodes := nodes - {addr};
    }

    method SetAlarmSiren(addr: nat)
      modifies `nodes, `alarmSiren
      ensures View() == old(View()).SetAlarmSiren(addr)
    {
      if addr == alarmSiren { return; }
      alarmSiren := addr;
      var todo := nodes.Keys;
      while todo != {}
        invariant todo <= nodes.Keys == old(nodes.Keys) && alarmSiren == addr
        invariant forall a :: a in nodes ==>
          nodes[a] == if a in todo || old(nodes[a]).sensor.model.SRN? then old(nodes[a])
                      else old(nodes[a]).(configSent := false)
        decreases todo
      {
        var a := Choose(todo);
        if nodes[a].sensor.model != SRN {
          nodes := nodes[a := nodes[a].(configSent := false)];
        }
        todo := todo - {a};
      }
    }

    method StartOne(a: nat) returns (send: seq<Frame>)
      modifies this
      ensures Result(View(), send, []) == old(View()).StartOne(a)
      ensures nodes.Keys == old(nodes.Keys)
    {
      send := [];
      if a in nodes && nodes[a].sensor.model == SRN {
        nodes := nodes[a := nodes[a].(configSent := true)];
        var f := SendRouted(a, Config(nodes[a].sensor, alarmSiren), true);
        send := [f];
      }
    }

    /** Addresses in increasing order, each asked for its state if a siren. */
    method Start() returns (send: seq<Frame>, ghost order: seq<nat>)
      modifies this
      ensures Increasing(order) && forall a :: a in order <==> a in old(nodes)
      ensures Result(View(), send, []) == old(View()).StartOver(order)
    {
      send, order := [], [];
      var todo := nodes.Keys;
      while todo != {}
        invariant nodes.Keys == old(nodes.Keys) && Sweeps(order, old(nodes.Keys), todo)
        invariant Result(View(), send, []) == old(View()).StartOver(order)
        decreases todo
      {
        var a := Least(todo);
        StartPush(old(View()), order, a);
        SweepOne(order, old(nodes.Keys), todo, a);
        var more := StartOne(a);
        send := send + more;
        order := order + [a];
        todo := todo - {a};
      }
    }
  }

  method Least(s: set<nat>) returns (x: nat)
    requires s != {}
    ensures x in s && forall y :: y in s ==> x <= y
  {
    x := Choose(s);
    var todo := s;
    while todo != {}
      invariant x in s && todo <= s && forall y :: y in s && y !in todo ==> x <= y
      decreases todo
    {
      var y := Choose(todo);
      if y < x { x := y; }
      todo := todo - {y};
    }
  }
}
