/** The provisioning dialogue of one sensor, from its heartbeat to its config. */

module RadioDialogue {
  import opened Wrappers
  import opened Bytes
  import opened Managed
  import opened VmOps
  import opened VmFrames
  import opened VmInstall
  import opened RadioModel
  import H = RadioHistory

  /** Whether an operation is a frame of a's that must be answered. */
  predicate Hears(op: H.Op, a: nat) { op.Receives? && !op.rx.Report() && op.rx.src == a && op.rx.Z() }

  predicate Same(n: Node, m: Node) { n.(lastReply := 0) == m.(lastReply := 0) }

  /** Where the dialogue stands, the same or dropped. */
  predicate Aside(n: Node, m: Node) {
    && m.sentOps == n.sentOps && m.needTime == n.needTime
    && ((m.step == n.step && m.vm == n.vm) || (m.step.Idle? && m.vm == []))
  }

  /** What a frame of a's does to a's node, and what goes back. */
  lemma {:induction false} EngineReplies(e: Engine, op: H.Op, a: nat)
    requires e.Valid() && Hears(op, a) && a in e.nodes
    ensures var r := H.Sends(e, op);
      var x := React(e.nodes[a], op.rx, op.now, op.fetched, e.alarmSiren);
      && a in r.engine.nodes && Same(r.engine.nodes[a], x.node)
      && |r.send| == 1 && r.send[0].gwDst == a && r.send[0].flags == x.reply.flags
      && r.send[0].wflags == x.reply.wflags && r.send[0].payload == x.reply.payload
  {
  }

  lemma {:induction false} OtherFrames(e: Engine, op: H.Op, a: nat)
    requires e.Valid() && op.Receives? && !Hears(op, a) && a in e.nodes && a in H.Sends(e, op).engine.nodes
    ensures Aside(e.nodes[a], H.Sends(e, op).engine.nodes[a])
    ensures var f := H.Sends(e, op).send; f != [] ==> f[0].gwDst != a
  {
  }

  lemma {:induction false} OtherCalls(e: Engine, op: H.Op, a: nat)
    requires e.Valid() && !op.Receives? && a in e.nodes && a in H.Sends(e, op).engine.nodes
    ensures Aside(e.nodes[a], H.Sends(e, op).engine.nodes[a])
    ensures var f := H.Sends(e, op).send; f != [] ==> f[0].wflags == WF_APP
  {
  }

  /** No other operation moves a's dialogue on, or sends it bytecode. */
  lemma {:induction false} OtherOps(e: Engine, op: H.Op, a: nat)
    requires e.Valid() && !Hears(op, a) && a in e.nodes && a in H.Sends(e, op).engine.nodes
    ensures Aside(e.nodes[a], H.Sends(e, op).engine.nodes[a])
    ensures var f := H.Sends(e, op).send; f != [] && f[0].gwDst == a ==> f[0].wflags == WF_APP
  {
    if op.Receives? { OtherFrames(e, op, a); } else { OtherCalls(e, op, a); }
  }

  /** Whether the i-th operation of a run sends a a bytecode frame. */
  predicate SendsVM(worlds: seq<H.World>, ops: seq<H.Op>, a: nat, i: nat)
    requires i < |ops| && i < |worlds| && worlds[i].engine.Valid()
  {
    var f := H.Sends(worlds[i].engine, ops[i]).send;
    f != [] && f[0].gwDst == a && f[0].wflags == WF_BYTECODE
  }

  /** The bytecode frames sent to a from one operation on, before another. */
  function VmSent(worlds: seq<H.World>, ops: seq<H.Op>, a: nat, from: nat, to: nat): seq<seq<byte>>
    requires from <= to <= |ops| < |worlds| && forall i :: 0 <= i < |ops| ==> worlds[i].engine.Valid()
  {
    if to == from then []
    else if SendsVM(worlds, ops, a, to - 1) then
      VmSent(worlds, ops, a, from, to - 1) + [H.Sends(worlds[to - 1].engine, ops[to - 1]).send[0].payload]
    else VmSent(worlds, ops, a, from, to - 1)
  }

  ghost predicate Valid(worlds: seq<H.World>, ops: seq<H.Op>) {
    && |worlds| == |ops| + 1
    && forall i :: 0 <= i < |ops| ==>
         worlds[i].engine.Valid() && worlds[i + 1].engine == H.Sends(worlds[i].engine, ops[i]).engine
  }

  /** Between two operations of a run: the first is a's status answer, which
      asks for bytecode and gets the frames of plan; a stays paired and sends no
      heartbeat. Anything else may happen, to a or to others. */
  ghost predicate Stretch(worlds: seq<H.World>, ops: seq<H.Op>, a: nat, from: nat, to: nat, plan: seq<seq<byte>>) {
    && Valid(worlds, ops) && from < to <= |ops| && plan != []
    && (forall i :: from <= i <= to ==> a in worlds[i].engine.nodes)
    && (forall i :: from <= i < to && Hears(ops[i], a) ==> ops[i].rx.wflags != WF_STATUS)
    && Hears(ops[from], a) && worlds[from].engine.nodes[a].step.ReadingStatus?
    && StatusAnswer(ops[from].rx) && NeedsBytecode(ops[from].rx.payload[0]) && ops[from].fetched == Some(plan)
  }

  /** The i-th operation is the sensor's full acknowledgement of the last frame sent. */
  ghost predicate AcksLast(worlds: seq<H.World>, ops: seq<H.Op>, a: nat, from: nat, i: nat)
    requires Valid(worlds, ops) && from <= i < |ops|
  {
    var sent := VmSent(worlds, ops, a, from, i);
    Hears(ops[i], a) && sent != [] && FullAck(ops[i].rx, CountFrom(sent[|sent| - 1], 1))
  }

  ghost predicate AllAcked(worlds: seq<H.World>, ops: seq<H.Op>, a: nat, from: nat, to: nat, plan: seq<seq<byte>>)
    requires Valid(worlds, ops) && from <= to <= |ops|
  {
    exists h :: from < h < to && AcksLast(worlds, ops, a, from, h) && VmSent(worlds, ops, a, from, h) == plan
  }

  /** Where the node stands before the j-th operation, k frames sent. */
  ghost predicate Standing(worlds: seq<H.World>, ops: seq<H.Op>, a: nat, from: nat, j: nat, k: nat,
                           plan: seq<seq<byte>>)
    requires Valid(worlds, ops) && from < j <= |ops| && a in worlds[j].engine.nodes
  {
    var n := worlds[j].engine.nodes[a];
    && 1 <= k <= |plan| && VmSent(worlds, ops, a, from, j) == plan[..k]
    && match n.step
       case WritingVM => n.vm == plan[k..] && n.sentOps == CountFrom(plan[k - 1], 1)
       case SendingTime => AllAcked(worlds, ops, a, from, j, plan)
       case Idle => true
       case ReadingStatus => false
  }

  lemma {:induction false} FirstFrame(worlds: seq<H.World>, ops: seq<H.Op>, a: nat, from: nat, to: nat,
                                      plan: seq<seq<byte>>)
    requires Stretch(worlds, ops, a, from, to, plan)
    ensures Standing(worlds, ops, a, from, from + 1, 1, plan)
  {
    EngineReplies(worlds[from].engine, ops[from], a);
    assert VmSent(worlds, ops, a, from, from) == [];
    assert VmSent(worlds, ops, a, from, from + 1) == [plan[0]] == plan[..1];
  }

  lemma {:induction false} Waits(worlds: seq<H.World>, ops: seq<H.Op>, a: nat, from: nat, to: nat,
                                 plan: seq<seq<byte>>, j: nat, k: nat)
    requires Stretch(worlds, ops, a, from, to, plan) && from < j < to && Standing(worlds, ops, a, from, j, k, plan)
    requires !Hears(ops[j], a)
    ensures Standing(worlds, ops, a, from, j + 1, k, plan) && !SendsVM(worlds, ops, a, j)
  {
    assert a in worlds[j + 1].engine.nodes;
    OtherOps(worlds[j].engine, ops[j], a);
    assert !SendsVM(worlds, ops, a, j);
    assert VmSent(worlds, ops, a, from, j + 1) == VmSent(worlds, ops, a, from, j);
    if worlds[j].engine.nodes[a].step.SendingTime? { AckedStays(worlds, ops, a, from, j, plan); }
  }

  lemma {:induction false} AckedStays(worlds: seq<H.World>, ops: seq<H.Op>, a: nat, from: nat, j: nat,
                                      plan: seq<seq<byte>>)
    requires Valid(worlds, ops) && from <= j < |ops| && AllAcked(worlds, ops, a, from, j, plan)
    ensures AllAcked(worlds, ops, a, from, j + 1, plan)
  {
    var h :| from < h < j && AcksLast(worlds, ops, a, from, h) && VmSent(worlds, ops, a, from, h) == plan;
    assert from < h < j + 1;
  }

  /** Whether a frame acknowledges the last bytecode frame fully. */
  predicate Acks(n: Node, rx: Frame) { n.step.WritingVM? && VmAck(rx) && FullAck(rx, n.sentOps) }

  /** The three ways a node goes on, other than at a heartbeat: to the next
      bytecode frame, out of the bytecode, or not at all. */
  lemma {:induction false} NodeGoes(n: Node, rx: Frame, now: int, fetched: Option<seq<seq<byte>>>, alarmSiren: nat)
    requires ValidSensor(n.sensor) && rx.wflags != WF_STATUS && !n.step.ReadingStatus?
    ensures var x := React(n, rx, now, fetched, alarmSiren);
      if Acks(n, rx) && n.vm != [] then
        && x.reply.wflags == WF_BYTECODE && x.reply.payload == n.vm[0] && !x.reply.config
        && x.node.step.WritingVM? && x.node.vm == n.vm[1..] && x.node.sentOps == CountFrom(n.vm[0], 1)
      else
        && x.reply.wflags != WF_BYTECODE && !x.node.step.ReadingStatus?
        && (x.node.step.WritingVM? ==> n.step.WritingVM? && x.node.vm == n.vm && x.node.sentOps == n.sentOps)
        && (x.node.step.SendingTime? || x.reply.config ==> n.step.SendingTime? || Acks(n, rx))
  {
  }

  /** A full acknowledgement sends the next frame, or ends the plan. */
  lemma {:induction false} GoesOn(worlds: seq<H.World>, ops: seq<H.Op>, a: nat, from: nat, to: nat,
                                  plan: seq<seq<byte>>, j: nat, k: nat)
    requires Stretch(worlds, ops, a, from, to, plan) && from < j < to && Standing(worlds, ops, a, from, j, k, plan)
    requires Hears(ops[j], a) && Acks(worlds[j].engine.nodes[a], ops[j].rx)
    ensures AcksLast(worlds, ops, a, from, j)
    ensures if worlds[j].engine.nodes[a].vm != [] then
              Standing(worlds, ops, a, from, j + 1, k + 1, plan) && !H.CarriesConfig(worlds[j].engine, ops[j])
            else
              && Standing(worlds, ops, a, from, j + 1, k, plan) && !SendsVM(worlds, ops, a, j)
              && AllAcked(worlds, ops, a, from, j + 1, plan)
  {
    var e, op := worlds[j].engine, ops[j];
    var n := e.nodes[a];
    assert a in worlds[j + 1].engine.nodes;
    EngineReplies(e, op, a);
    NodeGoes(n, op.rx, op.now, op.fetched, e.alarmSiren);
    var sent := VmSent(worlds, ops, a, from, j);
    assert sent[|sent| - 1] == plan[k - 1];
    assert AcksLast(worlds, ops, a, from, j);
    if n.vm != [] {
      NextFrame(plan, k);
      assert VmSent(worlds, ops, a, from, j + 1) == sent + [plan[k]];
    } else {
      assert plan[..k] == plan;
    }
  }

  /** Any other frame of the sensor's sends no bytecode. */
  lemma {:induction false} GoesAside(worlds: seq<H.World>, ops: seq<H.Op>, a: nat, from: nat, to: nat,
                                     plan: seq<seq<byte>>, j: nat, k: nat)
    requires Stretch(worlds, ops, a, from, to, plan) && from < j < to && Standing(worlds, ops, a, from, j, k, plan)
    requires Hears(ops[j], a) && !Acks(worlds[j].engine.nodes[a], ops[j].rx)
    ensures Standing(worlds, ops, a, from, j + 1, k, plan) && !SendsVM(worlds, ops, a, j)
    ensures H.CarriesConfig(worlds[j].engine, ops[j]) ==> AllAcked(worlds, ops, a, from, j + 1, plan)
  {
    var e, op := worlds[j].engine, ops[j];
    var n := e.nodes[a];
    assert a in worlds[j + 1].engine.nodes;
    EngineReplies(e, op, a);
    NodeGoes(n, op.rx, op.now, op.fetched, e.alarmSiren);
    if n.step.SendingTime? { AckedStays(worlds, ops, a, from, j, plan); }
  }

  lemma {:induction false} Goes(worlds: seq<H.World>, ops: seq<H.Op>, a: nat, from: nat, to: nat,
                                plan: seq<seq<byte>>, j: nat, k: nat)
    returns (k': nat)
    requires Stretch(worlds, ops, a, from, to, plan) && from < j < to && Standing(worlds, ops, a, from, j, k, plan)
    requires Hears(ops[j], a)
    ensures Standing(worlds, ops, a, from, j + 1, k', plan)
    ensures SendsVM(worlds, ops, a, j) ==> AcksLast(worlds, ops, a, from, j)
    ensures H.CarriesConfig(worlds[j].engine, ops[j]) ==> AllAcked(worlds, ops, a, from, j + 1, plan)
  {
    k' := k;
    if Acks(worlds[j].engine.nodes[a], ops[j].rx) {
      GoesOn(worlds, ops, a, from, to, plan, j, k);
      if worlds[j].engine.nodes[a].vm != [] { k' := k + 1; }
    } else {
      GoesAside(worlds, ops, a, from, to, plan, j, k);
    }
  }

  lemma {:induction false} NextFrame(plan: seq<seq<byte>>, k: nat)
    requires k < |plan|
    ensures plan[k..][0] == plan[k] && plan[k..][1..] == plan[k + 1..] && plan[..k] + [plan[k]] == plan[..k + 1]
  {
  }

  lemma {:induction false} Stands(worlds: seq<H.World>, ops: seq<H.Op>, a: nat, from: nat, to: nat,
                                  plan: seq<seq<byte>>, j: nat)
    returns (k: nat)
    requires Stretch(worlds, ops, a, from, to, plan) && from < j <= to
    ensures Standing(worlds, ops, a, from, j, k, plan)
  {
    if j == from + 1 {
      FirstFrame(worlds, ops, a, from, to, plan);
      k := 1;
    } else {
      k := Stands(worlds, ops, a, from, to, plan, j - 1);
      if Hears(ops[j - 1], a) {
        k := Goes(worlds, ops, a, from, to, plan, j - 1, k);
      } else {
        Waits(worlds, ops, a, from, to, plan, j - 1, k);
      }
    }
  }

  /** In any run, once a sensor asked for bytecode and got it, and until its
      next heartbeat, whatever happens to it and to others: the bytecode frames
      sent to it are the first of the plan, in order; each after the first
      answers the full acknowledgement of the one before; a config answers it
      only once the last one was acknowledged. */
  lemma {:induction false} BytecodeGoesInOrder(worlds: seq<H.World>, ops: seq<H.Op>, a: nat, from: nat, to: nat,
                                               plan: seq<seq<byte>>, j: nat)
    requires H.Run(worlds, ops) && Stretch(worlds, ops, a, from, to, plan) && from < j < to
    ensures VmSent(worlds, ops, a, from, j + 1) <= plan
    ensures SendsVM(worlds, ops, a, j) ==> AcksLast(worlds, ops, a, from, j)
    ensures Hears(ops[j], a) && H.CarriesConfig(worlds[j].engine, ops[j]) ==>
      AllAcked(worlds, ops, a, from, j + 1, plan)
  {
    var k := Stands(worlds, ops, a, from, to, plan, j);
    if Hears(ops[j], a) {
      var k' := Goes(worlds, ops, a, from, to, plan, j, k);
    } else {
      Waits(worlds, ops, a, from, to, plan, j, k);
    }
  }

  // A sensor that cooperates.

  /** What an operation sends back, if anything. */
  function Said(w: H.World, op: H.Op): Option<Frame>
    requires w.engine.Valid()
  {
    var f := H.Sends(w.engine, op).send;
    if f == [] then None else Some(f[0])
  }

  /** How such a sensor goes on after a reply; a config or an ack ends it. */
  predicate Cooperates(f: Frame, rx: Frame, status: byte) {
    if f.wflags == WF_READ_STATUS then StatusAnswer(rx) && rx.payload[0] == status
    else if f.wflags == WF_BYTECODE then
      VmAck(rx) && ParseFrame(f.payload).Some? && FromLe(rx.payload[..4]) == Pow2(|ParseFrame(f.payload).value|) - 1
    else f.wflags == WF_TIME && !rx.W() && rx.wflags == 0
  }

  predicate Ends(wflags: byte) { wflags !in {WF_READ_STATUS, WF_BYTECODE, WF_TIME} }

  /** An operation that is not about a. */
  predicate Elsewhere(e: Engine, op: H.Op, a: nat) {
    && !Hears(op, a)
    && (var lost := H.Reported(op); lost.Some? && lost.value in e.sent ==> e.sent[lost.value].addr != a)
    && match op
       case Sets(s) => s.addr != a
       case Removes(b) => b != a
       case Asks(b) => b != a
       case SetsSiren(siren) => siren == e.alarmSiren
       case _ => true
  }

  lemma {:induction false} ElsewhereKeeps(e: Engine, op: H.Op, a: nat)
    requires e.Valid() && Elsewhere(e, op, a) && a in e.nodes
    ensures a in H.Sends(e, op).engine.nodes && H.Sends(e, op).engine.nodes[a] == e.nodes[a]
  {
  }

  /** A conversation of a's within a run, at the operations xs: from a heartbeat
      to a reply that ends it. What comes in between is not about a. */
  ghost predicate Conversation(worlds: seq<H.World>, ops: seq<H.Op>, a: nat, xs: seq<nat>, status: byte) {
    && Valid(worlds, ops) && |xs| >= 1
    && (forall i, j :: 0 <= i < j < |xs| ==> xs[i] < xs[j])
    && (forall i :: 0 <= i < |xs| ==> xs[i] < |ops| && Hears(ops[xs[i]], a))
    && (forall m :: xs[0] <= m < xs[|xs| - 1] && m !in xs ==> Elsewhere(worlds[m].engine, ops[m], a))
    && a in worlds[xs[0]].engine.nodes && ops[xs[0]].rx.wflags == WF_STATUS
    && (forall i :: 1 <= i < |xs| ==> Continues(worlds, ops, xs[i - 1], xs[i], status))
    && var last := Said(worlds[xs[|xs| - 1]], ops[xs[|xs| - 1]]); last.Some? && Ends(last.value.wflags)
  }

  ghost predicate Continues(worlds: seq<H.World>, ops: seq<H.Op>, i: nat, j: nat, status: byte)
    requires Valid(worlds, ops) && i < |ops| && j < |ops|
  {
    Said(worlds[i], ops[i]).Some? && ops[j].Receives? && Cooperates(Said(worlds[i], ops[i]).value, ops[j].rx, status)
  }

  /** What the status asks for, and what is at hand to answer it. */
  ghost predicate Plans(worlds: seq<H.World>, ops: seq<H.Op>, xs: seq<nat>, status: byte, plan: seq<seq<byte>>) {
    && Readable(plan)
    && if NeedsBytecode(status) then
         plan != [] && (|xs| > 1 ==> xs[1] < |ops| && ops[xs[1]].Receives? && ops[xs[1]].fetched == Some(plan))
       else plan == []
  }

  function Extra(status: byte): nat { if NeedsTime(status) then 1 else 0 }

  /** What the i-th reply of a conversation is. */
  predicate Expected(wflags: byte, payload: seq<byte>, i: nat, plan: seq<seq<byte>>, time: bool) {
    if i == 0 then wflags == WF_READ_STATUS
    else if i <= |plan| then wflags == WF_BYTECODE && payload == plan[i - 1]
    else if time && i == |plan| + 1 then wflags == WF_TIME
    else Ends(wflags)
  }

  /** Where the node stands before the i-th frame. */
  predicate Due(n: Node, i: nat, plan: seq<seq<byte>>, time: bool) {
    if i == 0 then true
    else if i == 1 then n.step.ReadingStatus?
    else if i <= |plan| + 1 then
      n.step.WritingVM? && n.vm == plan[i - 1..] && n.sentOps == CountFrom(plan[i - 2], 1)
      && n.needTime == time && !n.configSent
    else if time && i == |plan| + 2 then n.step.SendingTime? && !n.needTime && (plan != [] ==> !n.configSent)
    else n.step.Idle?
  }

  predicate Readable(plan: seq<seq<byte>>) {
    forall p :: p in plan ==> ParseFrame(p).Some? && |ParseFrame(p).value| < 32
  }

  /** One exchange with a cooperating sensor: before is the reply it follows. */
  lemma {:induction false} Exchange(n: Node, rx: Frame, now: int, fetched: Option<seq<seq<byte>>>, alarmSiren: nat,
                                    i: nat, plan: seq<seq<byte>>, status: byte, before: Frame)
    requires ValidSensor(n.sensor) && Readable(plan) && Due(n, i, plan, NeedsTime(status))
    requires if NeedsBytecode(status) then plan != [] && (i == 1 ==> fetched == Some(plan)) else plan == []
    requires i < |plan| + 2 + Extra(status)
    requires if i == 0 then rx.wflags == WF_STATUS
      else Expected(before.wflags, before.payload, i - 1, plan, NeedsTime(status)) && Cooperates(before, rx, status)
    ensures var x := React(n, rx, now, fetched, alarmSiren);
      && Expected(x.reply.wflags, x.reply.payload, i, plan, NeedsTime(status))
      && Due(x.node, i + 1, plan, NeedsTime(status))
      && (plan != [] && i == |plan| + 1 + Extra(status) ==> x.reply.config && x.node.configSent)
  {
    if 2 <= i <= |plan| + 1 {
      CountsWhatIsParsed(plan[i - 2]);
      assert plan[i - 2] in plan;
    }
  }

  /** Nothing happens to a from one of its frames to the next. */
  lemma {:induction false} Meanwhile(worlds: seq<H.World>, ops: seq<H.Op>, a: nat, i: nat, j: nat)
    requires Valid(worlds, ops) && i <= j <= |ops| && a in worlds[i].engine.nodes
    requires forall m :: i <= m < j ==> Elsewhere(worlds[m].engine, ops[m], a)
    ensures a in worlds[j].engine.nodes && worlds[j].engine.nodes[a] == worlds[i].engine.nodes[a]
    decreases j
  {
    if i < j {
      Meanwhile(worlds, ops, a, i, j - 1);
      assert Elsewhere(worlds[j - 1].engine, ops[j - 1], a);
      ElsewhereKeeps(worlds[j - 1].engine, ops[j - 1], a);
    }
  }

  lemma {:induction false} BetweenTwo(xs: seq<nat>, i: nat, m: nat)
    requires forall j, k :: 0 <= j < k < |xs| ==> xs[j] < xs[k]
    requires 1 <= i < |xs| && xs[i - 1] < m < xs[i]
    ensures m !in xs
  {
  }

  /** What holds after the i-th frame of a conversation. */
  ghost predicate Gone(worlds: seq<H.World>, ops: seq<H.Op>, a: nat, x: nat, i: nat, plan: seq<seq<byte>>, status: byte)
    requires Valid(worlds, ops) && x < |ops|
  {
    && a in worlds[x + 1].engine.nodes && Due(worlds[x + 1].engine.nodes[a], i + 1, plan, NeedsTime(status))
    && var f := Said(worlds[x], ops[x]);
       && f.Some? && Expected(f.value.wflags, f.value.payload, i, plan, NeedsTime(status))
       && (plan != [] && i == |plan| + 1 + Extra(status) ==>
            H.CarriesConfig(worlds[x].engine, ops[x]) && worlds[x + 1].engine.nodes[a].configSent)
  }

  lemma {:induction false} Answered(worlds: seq<H.World>, ops: seq<H.Op>, a: nat, x: nat, i: nat, plan: seq<seq<byte>>,
                                    status: byte, before: Frame)
    requires Valid(worlds, ops) && x < |ops| && Hears(ops[x], a) && a in worlds[x].engine.nodes
    requires Readable(plan) && Due(worlds[x].engine.nodes[a], i, plan, NeedsTime(status))
    requires if NeedsBytecode(status) then plan != [] && (i == 1 ==> ops[x].fetched == Some(plan)) else plan == []
    requires i < |plan| + 2 + Extra(status)
    requires i == 0 ==> ops[x].rx.wflags == WF_STATUS
    requires i > 0 ==>
      Expected(before.wflags, before.payload, i - 1, plan, NeedsTime(status)) && Cooperates(before, ops[x].rx, status)
    ensures Gone(worlds, ops, a, x, i, plan, status)
  {
    var e, op := worlds[x].engine, ops[x];
    EngineReplies(e, op, a);
    Exchange(e.nodes[a], op.rx, op.now, op.fetched, e.alarmSiren, i, plan, status, before);
  }

  lemma {:induction false} ConversationGoes(worlds: seq<H.World>, ops: seq<H.Op>, a: nat, xs: seq<nat>, status: byte,
                                            plan: seq<seq<byte>>, i: nat)
    requires Conversation(worlds, ops, a, xs, status) && Plans(worlds, ops, xs, status, plan)
    requires i < |xs| && i < |plan| + 2 + Extra(status)
    ensures Gone(worlds, ops, a, xs[i], i, plan, status)
  {
    assert Hears(ops[xs[i]], a);
    if i == 0 {
      Answered(worlds, ops, a, xs[0], 0, plan, status, ops[xs[0]].rx);
    } else {
      ConversationGoes(worlds, ops, a, xs, status, plan, i - 1);
      assert Continues(worlds, ops, xs[i - 1], xs[i], status);
      forall m | xs[i - 1] + 1 <= m < xs[i] ensures Elsewhere(worlds[m].engine, ops[m], a) { BetweenTwo(xs, i, m); }
      Meanwhile(worlds, ops, a, xs[i - 1] + 1, xs[i]);
      Answered(worlds, ops, a, xs[i], i, plan, status, Said(worlds[xs[i - 1]], ops[xs[i - 1]]).value);
    }
  }

  lemma {:induction false} ExactlySoMany(worlds: seq<H.World>, ops: seq<H.Op>, a: nat, xs: seq<nat>, status: byte,
                                         plan: seq<seq<byte>>)
    requires Conversation(worlds, ops, a, xs, status) && Plans(worlds, ops, xs, status, plan)
    ensures |xs| == 2 + |plan| + Extra(status)
  {
    var total := 2 + |plan| + Extra(status);
    if |xs| < total {
      ConversationGoes(worlds, ops, a, xs, status, plan, |xs| - 1);
    } else if |xs| > total {
      assert Continues(worlds, ops, xs[total - 1], xs[total], status);
      ConversationGoes(worlds, ops, a, xs, status, plan, total - 1);
    }
  }

  /** In any run, a cooperating sensor is brought to rest by exactly one reply
      for its heartbeat, one for each bytecode frame, one for the time if it
      asked, and one that ends it: its config when it got bytecode. */
  lemma {:induction false} CooperatingSensorRests(worlds: seq<H.World>, ops: seq<H.Op>, a: nat, xs: seq<nat>,
                                                  status: byte,
                                                  plan: seq<seq<byte>>)
    requires H.Run(worlds, ops) && Conversation(worlds, ops, a, xs, status) && Plans(worlds, ops, xs, status, plan)
    ensures |xs| == 2 + |plan| + Extra(status)
    ensures var last := xs[|xs| - 1];
      && a in worlds[last + 1].engine.nodes && worlds[last + 1].engine.nodes[a].step.Idle?
      && (plan != [] ==> H.CarriesConfig(worlds[last].engine, ops[last]) && worlds[last + 1].engine.nodes[a].configSent)
    ensures forall i :: 1 <= i <= |plan| ==>
      var f := Said(worlds[xs[i]], ops[xs[i]]);
      f.Some? && f.value.wflags == WF_BYTECODE && f.value.payload == plan[i - 1]
  {
    ExactlySoMany(worlds, ops, a, xs, status, plan);
    ConversationGoes(worlds, ops, a, xs, status, plan, |xs| - 1);
    forall i | 1 <= i <= |plan|
      ensures var f := Said(worlds[xs[i]], ops[xs[i]]);
        f.Some? && f.value.wflags == WF_BYTECODE && f.value.payload == plan[i - 1]
    {
      ConversationGoes(worlds, ops, a, xs, status, plan, i);
    }
  }

  lemma {:induction false} InitFramesReadable(b: seq<byte>, frames: seq<seq<Op>>)
    requires FlushRule(frames, InitSequence(b, []))
    ensures Readable(Wire(frames)) && frames != []
  {
    forall k | 0 <= k < |frames| ensures ParseFrame(Wire(frames)[k]).Some? && |ParseFrame(Wire(frames)[k]).value| < 32 {
      FewOpsAFrame(b, [], frames, k);
      ChunksFit(b, 0);
      var i := FrameIsSlice(frames, k);
      assert forall op :: op in frames[k] ==> op in InitSequence(b, []);
      FrameRoundTrip(frames[k]);
    }
  }

  /** What the second reply of a conversation and the n - 1 after it carry. */
  ghost function Carried(worlds: seq<H.World>, ops: seq<H.Op>, xs: seq<nat>, n: nat): seq<seq<byte>>
    requires Valid(worlds, ops) && n < |xs| && forall i :: 0 <= i < |xs| ==> xs[i] < |ops|
  {
    seq(n, i requires 0 <= i < n =>
      match Said(worlds[xs[i + 1]], ops[xs[i + 1]])
      case None => []
      case Some(f) => f.payload)
  }

  lemma {:induction false} CarriesThePlan(worlds: seq<H.World>, ops: seq<H.Op>, a: nat, xs: seq<nat>, status: byte,
                                          plan: seq<seq<byte>>)
    requires Conversation(worlds, ops, a, xs, status) && Plans(worlds, ops, xs, status, plan)
    ensures |xs| == 2 + |plan| + Extra(status) && Carried(worlds, ops, xs, |plan|) == plan
  {
    ExactlySoMany(worlds, ops, a, xs, status, plan);
    var got := Carried(worlds, ops, xs, |plan|);
    forall i | 0 <= i < |plan| ensures got[i] == plan[i] {
      ConversationGoes(worlds, ops, a, xs, status, plan, i + 1);
    }
  }

  /** End to end: in any run, a sensor that lost its bytecode and cooperates
      ends up running exactly the bytecode the manifest gives, whatever its
      memory held, and with its config sent. */
  lemma {:induction false} ProvisioningInstalls(worlds: seq<H.World>, ops: seq<H.Op>, a: nat, xs: seq<nat>,
                                                status: byte,
                                                b: seq<byte>, frames: seq<seq<Op>>, vm0: Vm)
    requires |b| <= REGISTERS && FlushRule(frames, InitSequence(b, []))
    requires H.Run(worlds, ops) && Conversation(worlds, ops, a, xs, status) && NeedsBytecode(status)
    requires |xs| > 1 ==> ops[xs[1]].fetched == Some(Wire(frames))
    ensures |xs| == 2 + |frames| + Extra(status)
    ensures H.CarriesConfig(worlds[xs[|xs| - 1]].engine, ops[xs[|xs| - 1]])
    ensures var got := Carried(worlds, ops, xs, |frames|);
      Receive(vm0, got).Some? && Installed(Receive(vm0, got).value, vm0, b, [])
  {
    InitFramesReadable(b, frames);
    CooperatingSensorRests(worlds, ops, a, xs, status, Wire(frames));
    CarriesThePlan(worlds, ops, a, xs, status, Wire(frames));
    FramesInstall(vm0, b, [], frames);
  }
}
