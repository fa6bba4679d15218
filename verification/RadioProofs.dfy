/** What the radio engine keeps over every run: its counters, the frames it
    remembers, the configurations it believes sent. */

module RadioHistory {
  import opened Wrappers
  import opened Bytes
  import opened Managed
  import opened VmOps
  import opened RadioModel

  /** A frame the engine sent, whether it carries a configuration, and how
      old it was when first reported lost: 1 for the newest frame. */
  datatype Entry = Entry(frame: Frame, config: bool, report: Option<nat>)

  datatype World = World(engine: Engine, log: seq<Entry>)

  datatype Op =
    | Receives(rx: Frame, now: int, fetched: Option<seq<seq<byte>>>)
    | Loses(counter: nat)
    | Orders(addr: nat, payload: seq<byte>)
    | Asks(addr: nat)
    | Sets(s: Sensor)
    | Removes(addr: nat)
    | SetsSiren(addr: nat)

  /** The counter a delivery report speaks of, if it reports a loss. */
  function Reported(op: Op): Option<nat> {
    match op
    case Loses(c) => Some(c)
    case Receives(rx, _, _) => if rx.Report() && rx.Reason() != 0 then Some(rx.ackCnt) else None
    case _ => None
  }

  /** The newest of the first n frames with a counter. */
  function Newest(log: seq<Entry>, c: nat, n: nat): (i: Option<nat>)
    requires n <= |log|
    ensures i.Some? ==> i.value < n && log[i.value].frame.counter == c
    ensures i.Some? ==> forall j :: i.value < j < n ==> log[j].frame.counter != c
    ensures i.None? ==> forall j :: 0 <= j < n ==> log[j].frame.counter != c
  {
    if n == 0 then None
    else if log[n - 1].frame.counter == c then Some(n - 1)
    else Newest(log, c, n - 1)
  }

  /** A report speaks of the newest frame with its counter, whatever the
      engine remembers. */
  function Blame(log: seq<Entry>, op: Op): (r: seq<Entry>)
    ensures |r| == |log|
  {
    match Reported(op)
    case None => log
    case Some(c) =>
      match Newest(log, c, |log|)
      case None => log
      case Some(i) => if log[i].report.None? then log[i := log[i].(report := Some(|log| - i))] else log
  }

  function Sends(e: Engine, op: Op): Result
    requires e.Valid()
  {
    match op
    case Receives(rx, now, fetched) => e.Receive(rx, now, fetched)
    case Loses(c) => e.Lost(c)
    case Orders(addr, payload) => e.Command(addr, payload)
    case Asks(addr) => e.StartOne(addr)
    case Sets(s) => Result(match e.SetNode(s) case Some(f) => f case None => e, [], [])
    case Removes(addr) => Result(e.RemoveNode(addr), [], [])
    case SetsSiren(addr) => Result(e.SetAlarmSiren(addr), [], [])
  }

  /** Whether the frame an operation sends carries a configuration. */
  predicate CarriesConfig(e: Engine, op: Op)
    requires e.Valid()
  {
    match op
    case Receives(rx, now, fetched) =>
      rx.src in e.nodes && React(e.nodes[rx.src], rx, now, fetched, e.alarmSiren).reply.config
    case Asks(_) => true
    case _ => false
  }

  function Next(w: World, op: Op): World
    requires w.engine.Valid()
  {
    var r := Sends(w.engine, op);
    World(r.engine, Blame(w.log, op)
          + if r.send == [] then [] else [Entry(r.send[0], CarriesConfig(w.engine, op), None)])
  }

  predicate ValidOp(op: Op) {
    match op
    case Receives(rx, _, _) => rx.Valid()
    case Loses(c) => c < U32
    case Sets(s) => s.addr < U32
    case SetsSiren(a) => a < U32
    case _ => true
  }

  /** The last of the first n frames that is a configuration for an address. */
  function LastConfig(log: seq<Entry>, addr: nat, n: nat): (i: Option<nat>)
    requires n <= |log|
    ensures i.Some? ==> i.value < n && log[i.value].config && log[i.value].frame.gwDst == addr
  {
    if n == 0 then None
    else if log[n - 1].config && log[n - 1].frame.gwDst == addr then Some(n - 1)
    else LastConfig(log, addr, n - 1)
  }

  predicate Recent(log: seq<Entry>, i: nat) { i < |log| && |log| - i <= SENT_WINDOW }

  /** The engine remembers exactly the recent frames not reported lost, under
      their counters, which are consecutive. */
  ghost predicate SentOk(e: Engine, log: seq<Entry>) {
    && e.counter < U32
    && (forall i :: 0 <= i < |log| && Recent(log, i) ==>
         var x := log[i];
         && x.frame.counter == Before(e.counter, |log| - i)
         && (x.frame.counter in e.sent <==> x.report.None?)
         && (x.report.None? ==> e.sent[x.frame.counter] == Sent(x.frame.gwDst, x.config)))
    && (forall k :: k in e.sent ==>
         k < U32 && 1 <= Before(e.counter, k) <= SENT_WINDOW && Before(e.counter, k) <= |log|)
  }

  /** A config believed sent is the one last sent, and its loss was not
      reported while the engine remembered it. */
  ghost predicate ConfigOk(e: Engine, log: seq<Entry>, a: nat)
    requires a in e.nodes
  {
    e.nodes[a].configSent ==>
      var i := LastConfig(log, a, |log|);
      && i.Some? && log[i.value].frame.payload == Config(e.nodes[a].sensor, e.alarmSiren)
      && (log[i.value].report.Some? ==> log[i.value].report.value > SENT_WINDOW)
  }

  ghost predicate Inv(w: World) {
    && w.engine.Valid()
    && SentOk(w.engine, w.log)
    && forall a :: a in w.engine.nodes ==> ConfigOk(w.engine, w.log, a)
  }

  lemma {:induction false} BeforeSteps(counter: nat, k: nat)
    requires counter < U32 && 1 <= k <= SENT_WINDOW
    ensures Before(Succ(counter), k + 1) == Before(counter, k) < U32 && Before(counter, k) != counter
    ensures Before(counter, Before(counter, k)) == k && Before(Succ(counter), 1) == counter
  {
  }

  lemma {:induction false} BeforeApart(counter: nat, j: nat, k: nat)
    requires counter < U32 && 1 <= j <= SENT_WINDOW && 1 <= k <= SENT_WINDOW
    ensures Before(counter, j) == Before(counter, k) <==> j == k
  {
  }

  lemma {:induction false} AgeSteps(counter: nat, k: nat)
    requires counter < U32 && k < U32
    ensures Before(Succ(counter), k) ==
      if k == counter then 1 else if Before(counter, k) + 1 == U32 then 0 else Before(counter, k) + 1
    ensures Before(counter, k) == SENT_WINDOW <==> k == Before(counter, SENT_WINDOW)
  {
  }

  lemma {:induction false} NewestOfPrefix(log: seq<Entry>, more: seq<Entry>, addr: nat, n: nat)
    requires n <= |log|
    ensures LastConfig(log + more, addr, n) == LastConfig(log, addr, n)
  {
    if n > 0 { NewestOfPrefix(log, more, addr, n - 1); }
  }

  lemma {:induction false} LastConfigPush(log: seq<Entry>, x: Entry, addr: nat)
    ensures LastConfig(log + [x], addr, |log| + 1) ==
      if x.config && x.frame.gwDst == addr then Some(|log|) else LastConfig(log, addr, |log|)
  {
    NewestOfPrefix(log, [x], addr, |log|);
  }

  /** Counting a frame keeps the table to the last SENT_WINDOW counters. */
  lemma {:induction false} CountOk(e: Engine, log: seq<Entry>, x: Entry)
    requires SentOk(e, log) && x.frame.counter == e.counter && x.report.None?
    ensures SentOk(e.Count(x.frame.gwDst, x.config), log + [x])
  {
    var f, all := e.Count(x.frame.gwDst, x.config), log + [x];
    forall i | 0 <= i < |all| && Recent(all, i)
      ensures var y := all[i];
        && y.frame.counter == Before(f.counter, |all| - i)
        && (y.frame.counter in f.sent <==> y.report.None?)
        && (y.report.None? ==> f.sent[y.frame.counter] == Sent(y.frame.gwDst, y.config))
    {
      if i < |log| {
        assert Recent(log, i) && all[i] == log[i];
        BeforeSteps(e.counter, |log| - i);
        BeforeApart(e.counter, |log| - i, SENT_WINDOW);
      } else {
        BeforeSteps(e.counter, 1);
      }
    }
    forall k | k in f.sent
      ensures k < U32 && 1 <= Before(f.counter, k) <= SENT_WINDOW && Before(f.counter, k) <= |all|
    {
      AgeSteps(e.counter, k);
    }
  }

  lemma {:induction false} SentSame(e: Engine, f: Engine, log: seq<Entry>)
    requires SentOk(e, log) && f.sent == e.sent && f.counter == e.counter
    ensures SentOk(f, log)
  {
  }

  lemma {:induction false} ConfigPush(e: Engine, f: Engine, log: seq<Entry>, x: Entry, a: nat)
    requires a in e.nodes && a in f.nodes && ConfigOk(e, log, a) && f.alarmSiren == e.alarmSiren
    requires f.nodes[a].sensor == e.nodes[a].sensor && x.report.None?
    requires x.config && x.frame.gwDst == a ==> x.frame.payload == Config(f.nodes[a].sensor, f.alarmSiren)
    requires f.nodes[a].configSent && !e.nodes[a].configSent ==> x.config && x.frame.gwDst == a
    ensures ConfigOk(f, log + [x], a)
  {
    LastConfigPush(log, x, a);
  }

  lemma {:induction false} ReactConfig(n: Node, rx: Frame, now: int, fetched: Option<seq<seq<byte>>>, alarmSiren: nat)
    requires ValidSensor(n.sensor)
    ensures var x := React(n, rx, now, fetched, alarmSiren);
      && x.node.sensor == n.sensor
      && (x.reply.config ==> x.reply.payload == Config(n.sensor, alarmSiren))
      && (x.node.configSent && !n.configSent ==> x.reply.config)
  {
  }

  lemma {:induction false} AnswerOk(w: World, rx: Frame, now: int, fetched: Option<seq<seq<byte>>>)
    requires Inv(w) && rx.Valid() && !rx.Report() && rx.src in w.engine.nodes && rx.Z()
    ensures Inv(Next(w, Receives(rx, now, fetched)))
  {
    var e := w.engine;
    var x := React(e.nodes[rx.src], rx, now, fetched, e.alarmSiren);
    ReactConfig(e.nodes[rx.src], rx, now, fetched, e.alarmSiren);
    var r := e.Answer(x.node, x.reply, rx);
    var entry := Entry(r.1, x.reply.config, None);
    CountOk(e, w.log, entry);
    SentSame(e.Count(entry.frame.gwDst, entry.config), r.0, w.log + [entry]);
    forall a | a in r.0.nodes ensures ConfigOk(r.0, w.log + [entry], a) {
      ConfigPush(e, r.0, w.log, entry, a);
    }
  }

  lemma {:induction false} RoutedOk(w: World, e: Engine, addr: nat, payload: seq<byte>, config: bool)
    requires Inv(w) && e == w.engine.(nodes := e.nodes) && e.Valid() && e.nodes.Keys == w.engine.nodes.Keys
    requires addr in e.nodes && (config ==> payload == Config(e.nodes[addr].sensor, e.alarmSiren))
    requires forall a :: a in e.nodes ==> e.nodes[a].sensor == w.engine.nodes[a].sensor
    requires forall a :: a in e.nodes && e.nodes[a].configSent && !w.engine.nodes[a].configSent ==> config && a == addr
    ensures var r := e.Routed(addr, payload, config);
      Inv(World(r.0, w.log + [Entry(r.1, config, None)]))
  {
    var r := e.Routed(addr, payload, config);
    var entry := Entry(r.1, config, None);
    CountOk(w.engine, w.log, entry);
    SentSame(w.engine.Count(entry.frame.gwDst, entry.config), r.0, w.log + [entry]);
    forall a | a in r.0.nodes ensures ConfigOk(r.0, w.log + [entry], a) {
      ConfigPush(w.engine, r.0, w.log, entry, a);
    }
  }

  /** What a report finds: the frame it speaks of is remembered exactly when it
      is recent and was not reported before. */
  lemma {:induction false} ReportFinds(e: Engine, log: seq<Entry>, c: nat)
    requires SentOk(e, log) && c < U32
    ensures var i := Newest(log, c, |log|);
      && (c in e.sent <==> i.Some? && Recent(log, i.value) && log[i.value].report.None?)
      && (c in e.sent ==> e.sent[c] == Sent(log[i.value].frame.gwDst, log[i.value].config))
  {
    var i := Newest(log, c, |log|);
    if c in e.sent {
      var age := Before(e.counter, c);
      var j := |log| - age;
      assert Recent(log, j);
      assert log[j].frame.counter == Before(e.counter, age);
      BeforeSteps(e.counter, age);
      assert Before(e.counter, age) == c;
      assert i.Some? && i.value >= j && Recent(log, i.value);
      BeforeApart(e.counter, |log| - i.value, age);
    }
  }

  lemma {:induction false} LastConfigBlamed(log: seq<Entry>, i: nat, x: Entry, addr: nat, n: nat)
    requires i < |log| && n <= |log| && x.config == log[i].config && x.frame == log[i].frame
    ensures LastConfig(log[i := x], addr, n) == LastConfig(log, addr, n)
  {
    if n > 0 { LastConfigBlamed(log, i, x, addr, n - 1); }
  }

  lemma {:induction false} BlamedSent(e: Engine, log: seq<Entry>, c: nat)
    requires SentOk(e, log) && c < U32
    ensures SentOk(e.Lost(c).engine, Blame(log, Loses(c)))
  {
    ReportFinds(e, log, c);
    var n, f, all := Newest(log, c, |log|), e.Lost(c).engine, Blame(log, Loses(c));
    assert f.sent == e.sent - {c};
    forall i | 0 <= i < |all| && Recent(all, i)
      ensures var y := all[i];
        && y.frame.counter == Before(f.counter, |all| - i)
        && (y.frame.counter in f.sent <==> y.report.None?)
        && (y.report.None? ==> f.sent[y.frame.counter] == Sent(y.frame.gwDst, y.config))
    {
      assert Recent(log, i);
      if n.Some? && Recent(log, n.value) { BeforeApart(e.counter, |log| - i, |log| - n.value); }
    }
  }

  lemma {:induction false} LostOk(w: World, c: nat)
    requires Inv(w) && c < U32
    ensures Inv(World(w.engine.Lost(c).engine, Blame(w.log, Loses(c))))
  {
    var e, log := w.engine, w.log;
    BlamedSent(e, log, c);
    ReportFinds(e, log, c);
    var i, f, all := Newest(log, c, |log|), e.Lost(c).engine, Blame(log, Loses(c));
    forall a | a in f.nodes ensures ConfigOk(f, all, a) {
      assert ConfigOk(e, log, a);
      if i.Some? { LastConfigBlamed(log, i.value, log[i.value].(report := Some(|log| - i.value)), a, |log|); }
    }
  }

  lemma {:induction false} SettingsOk(w: World, op: Op)
    requires Inv(w) && ValidOp(op) && (op.Sets? || op.Removes? || op.SetsSiren?)
    ensures Inv(Next(w, op))
  {
    var e, f := w.engine, Next(w, op).engine;
    assert w.log + [] == w.log;
    SentSame(e, f, w.log);
    forall a | a in f.nodes ensures ConfigOk(f, w.log, a) {
      if a in e.nodes { assert ConfigOk(e, w.log, a); }
    }
  }

  lemma {:induction false} OrdersOk(w: World, addr: nat, payload: seq<byte>)
    requires Inv(w)
    ensures Inv(Next(w, Orders(addr, payload)))
  {
    if addr in w.engine.nodes { RoutedOk(w, w.engine, addr, payload, false); } else { assert w.log + [] == w.log; }
  }

  lemma {:induction false} AsksOk(w: World, addr: nat)
    requires Inv(w)
    ensures Inv(Next(w, Asks(addr)))
  {
    var e := w.engine;
    if addr in e.nodes && e.nodes[addr].sensor.model.SRN? {
      var n := e.nodes[addr].(configSent := true);
      RoutedOk(w, e.(nodes := e.nodes[addr := n]), addr, Config(n.sensor, e.alarmSiren), true);
    } else {
      assert w.log + [] == w.log;
    }
  }

  lemma {:induction false} LosesOk(w: World, c: nat)
    requires Inv(w) && c < U32
    ensures Inv(Next(w, Loses(c)))
  {
    LostOk(w, c);
    assert Blame(w.log, Loses(c)) + [] == Blame(w.log, Loses(c));
  }

  lemma {:induction false} ReceivesOk(w: World, rx: Frame, now: int, fetched: Option<seq<seq<byte>>>)
    requires Inv(w) && rx.Valid()
    ensures Inv(Next(w, Receives(rx, now, fetched)))
  {
    var op := Receives(rx, now, fetched);
    if Reported(op).Some? {
      LosesOk(w, rx.ackCnt);
      assert Next(w, op) == Next(w, Loses(rx.ackCnt));
    } else if !rx.Report() && rx.src in w.engine.nodes && rx.Z() {
      AnswerOk(w, rx, now, fetched);
    } else {
      assert w.log + [] == w.log;
    }
  }

  /** What every operation keeps. */
  lemma {:induction false} InvStep(w: World, op: Op)
    requires Inv(w) && ValidOp(op)
    ensures Inv(Next(w, op))
  {
    match op {
      case Receives(rx, now, fetched) => ReceivesOk(w, rx, now, fetched);
      case Loses(c) => LosesOk(w, c);
      case Orders(addr, payload) => OrdersOk(w, addr, payload);
      case Asks(addr) => AsksOk(w, addr);
      case _ => SettingsOk(w, op);
    }
  }

  /** A run from an engine that has sent nothing yet. */
  ghost predicate Run(worlds: seq<World>, ops: seq<Op>) {
    && |worlds| == |ops| + 1
    && worlds[0].log == [] && worlds[0].engine.Valid() && worlds[0].engine.sent == map[]
    && (forall a :: a in worlds[0].engine.nodes ==> !worlds[0].engine.nodes[a].configSent)
    && (forall i :: 0 <= i < |ops| ==>
         ValidOp(ops[i]) && worlds[i].engine.Valid() && worlds[i + 1] == Next(worlds[i], ops[i]))
  }

  lemma {:induction false} InvRun(worlds: seq<World>, ops: seq<Op>, i: nat)
    requires Run(worlds, ops) && i < |worlds|
    ensures Inv(worlds[i])
  {
    if i > 0 {
      InvRun(worlds, ops, i - 1);
      InvStep(worlds[i - 1], ops[i - 1]);
    }
  }

  /** A sensor the engine takes as configured was last sent the configuration it
      would be sent now, and that frame was not reported lost, unless with
      SENT_WINDOW or more frames sent after it. */
  lemma {:induction false} ConfigSentIsTrue(worlds: seq<World>, ops: seq<Op>, i: nat, addr: nat)
    requires Run(worlds, ops) && i < |worlds|
    requires addr in worlds[i].engine.nodes && worlds[i].engine.nodes[addr].configSent
    ensures var w := worlds[i];
      var c := LastConfig(w.log, addr, |w.log|);
      && c.Some? && w.log[c.value].frame.payload == Config(w.engine.nodes[addr].sensor, w.engine.alarmSiren)
      && (w.log[c.value].report.Some? ==> w.log[c.value].report.value > SENT_WINDOW)
  {
    InvRun(worlds, ops, i);
    assert ConfigOk(worlds[i].engine, worlds[i].log, addr);
  }

  /** When the first report of a config's loss undoes the belief that the
      sensor has it: exactly when fewer than SENT_WINDOW frames went out after
      it. Otherwise the belief is false, and stays. */
  lemma {:induction false} LossUndoesExactlyInTime(w: World, op: Op, addr: nat, i: nat)
    requires Inv(w) && ValidOp(op) && addr in w.engine.nodes && w.engine.nodes[addr].configSent
    requires LastConfig(w.log, addr, |w.log|) == Some(i) && w.log[i].report.None?
    requires Reported(op) == Some(w.log[i].frame.counter) && Newest(w.log, w.log[i].frame.counter, |w.log|) == Some(i)
    ensures var v := Next(w, op);
      && v.log[i].report == Some(|w.log| - i)
      && LastConfig(v.log, addr, |v.log|) == Some(i) && addr in v.engine.nodes
      && (v.engine.nodes[addr].configSent <==> |w.log| - i > SENT_WINDOW)
  {
    ReportFinds(w.engine, w.log, w.log[i].frame.counter);
    LastConfigBlamed(w.log, i, w.log[i].(report := Some(|w.log| - i)), addr, |w.log|);
    assert Blame(w.log, op) + [] == Blame(w.log, op);
  }

  lemma {:induction false} RunMore(worlds: seq<World>, ops: seq<Op>, op: Op)
    requires Run(worlds, ops) && ValidOp(op)
    ensures var w := worlds[|ops|];
      w.engine.Valid() && Run(worlds + [Next(w, op)], ops + [op])
  {
    InvRun(worlds, ops, |ops|);
  }

  /** A siren's config, then n commands to it. */
  predicate Busy(w: World, n: nat) {
    && w.engine.counter == |w.log| == n + 1 && 2 in w.engine.nodes && w.engine.nodes[2].configSent
    && LastConfig(w.log, 2, |w.log|) == Some(0) && w.log[0].report.None? && w.log[0].frame.counter == 0
    && Newest(w.log, 0, |w.log|) == Some(0)
  }

  lemma {:induction false} NewestPush(log: seq<Entry>, x: Entry, c: nat, n: nat)
    requires n <= |log|
    ensures Newest(log + [x], c, n) == Newest(log, c, n)
  {
    if n > 0 { NewestPush(log, x, c, n - 1); }
  }

  lemma {:induction false} BusyMore(w: World, n: nat)
    requires Inv(w) && Busy(w, n) && n + 2 < U32
    ensures Busy(Next(w, Orders(2, [])), n + 1)
  {
    var x := Entry(w.engine.Command(2, []).send[0], false, None);
    assert Next(w, Orders(2, [])).log == w.log + [x];
    LastConfigPush(w.log, x, 2);
    NewestPush(w.log, x, 0, |w.log|);
  }

  lemma {:induction false} BusyFirst() returns (w: World)
    ensures Run([w], []) && Busy(Next(w, Asks(2)), 0)
  {
    w := World(Engine(1, 0, 0, map[2 := NewNode(Sensor(2, SRN, 0, []))], map[]), []);
    var x := Entry(w.engine.StartOne(2).send[0], true, None);
    assert Next(w, Asks(2)).log == [] + [x] == [x];
    assert LastConfig([x], 2, 1) == Some(0) && Newest([x], 0, 1) == Some(0);
  }

  lemma {:induction false} BusyRun(n: nat) returns (worlds: seq<World>, ops: seq<Op>)
    requires n + 2 < U32
    ensures Run(worlds, ops) && Busy(worlds[|ops|], n)
  {
    if n == 0 {
      var w := BusyFirst();
      RunMore([w], [], Asks(2));
      worlds, ops := [w] + [Next(w, Asks(2))], [] + [Asks(2)];
    } else {
      worlds, ops := BusyRun(n - 1);
      InvRun(worlds, ops, |ops|);
      BusyMore(worlds[|ops|], n - 1);
      RunMore(worlds, ops, Orders(2, []));
      worlds, ops := worlds + [Next(worlds[|ops|], Orders(2, []))], ops + [Orders(2, [])];
    }
  }

  /** Such a run: a config, SENT_WINDOW commands, then the report of the
      config's loss. The engine goes on believing the config sent. */
  lemma {:induction false} LateLossIsIgnored() returns (worlds: seq<World>, ops: seq<Op>)
    ensures Run(worlds, ops) && ops != [] && ops[|ops| - 1] == Loses(0)
    ensures var w := worlds[|ops|];
      && 2 in w.engine.nodes && w.engine.nodes[2].configSent
      && LastConfig(w.log, 2, |w.log|) == Some(0) && w.log[0].frame.counter == 0 && w.log[0].report.Some?
  {
    worlds, ops := BusyRun(SENT_WINDOW);
    var w := worlds[|ops|];
    InvRun(worlds, ops, |ops|);
    LossUndoesExactlyInTime(w, Loses(0), 2, 0);
    RunMore(worlds, ops, Loses(0));
    worlds, ops := worlds + [Next(w, Loses(0))], ops + [Loses(0)];
  }

  /** The table of sent frames holds exactly the frames of the last SENT_WINDOW
      counters not reported lost, each with the address its frame went to. */
  lemma {:induction false} SentTableIsRecent(worlds: seq<World>, ops: seq<Op>, i: nat, k: nat)
    requires Run(worlds, ops) && i < |worlds| && k < U32
    ensures var w := worlds[i];
      var n := Newest(w.log, k, |w.log|);
      && (k in w.engine.sent <==> n.Some? && |w.log| - n.value <= SENT_WINDOW && w.log[n.value].report.None?)
      && (k in w.engine.sent ==> w.engine.sent[k] == Sent(w.log[n.value].frame.gwDst, w.log[n.value].config))
  {
    InvRun(worlds, ops, i);
    ReportFinds(worlds[i].engine, worlds[i].log, k);
  }

  /** A report blames a recent frame once, on the address that frame went to:
      the event names it, the dialogue it belongs to is dropped, a lost config
      goes out again; a report of any other frame, or again, does nothing. */
  lemma {:induction false} LostBlamesOnce(w: World, c: nat)
    requires Inv(w) && c < U32
    ensures var r := w.engine.Lost(c);
      var n := Newest(w.log, c, |w.log|);
      && r.engine.Lost(c) == Result(r.engine, [], [])
      && (if n.None? || !Recent(w.log, n.value) || w.log[n.value].report.Some? then r == Result(w.engine, [], [])
          else
            var x := w.log[n.value];
            var a := x.frame.gwDst;
            && (a in w.engine.nodes ==>
                  && r.events == [DeliveryFailed(a, c)]
                  && (x.config ==> !r.engine.nodes[a].configSent)
                  && (w.engine.nodes[a].lastReply == c ==> r.engine.nodes[a].step.Idle? && r.engine.nodes[a].vm == []))
            && (forall b :: b in w.engine.nodes && b != a ==> r.engine.nodes[b] == w.engine.nodes[b]))
  {
    ReportFinds(w.engine, w.log, c);
  }

  /** Every frame of a paired sensor flagged Z gets exactly one frame back, which
      acknowledges it by its source and its counter; no other frame gets any. */
  lemma {:induction false} OneAnswerEach(e: Engine, rx: Frame, now: int, fetched: Option<seq<seq<byte>>>)
    requires e.Valid() && rx.Valid()
    ensures var r := e.Receive(rx, now, fetched);
      if !rx.Report() && rx.src in e.nodes && rx.Z() then
        && |r.send| == 1 && r.send[0].A() && r.send[0].ackDst == rx.src && r.send[0].ackCnt == rx.counter
        && r.send[0].gwDst == rx.src && r.send[0].counter == e.counter
        && r.engine.counter == Succ(e.counter)
        && (forall a :: a in e.nodes && a != rx.src ==> a in r.engine.nodes && r.engine.nodes[a] == e.nodes[a])
      else r.send == [] && r.engine.counter == e.counter
  {
  }

  /** Outgoing counters are consecutive over every run, whatever the sensors. */
  lemma {:induction false} CountersAreConsecutive(worlds: seq<World>, ops: seq<Op>, i: nat)
    requires Run(worlds, ops) && i < |worlds|
    ensures var w, first := worlds[i], worlds[0].engine.counter;
      && w.engine.counter == (first + |w.log|) % U32
      && forall j :: 0 <= j < |w.log| ==> w.log[j].frame.counter == (first + j) % U32
  {
    if i > 0 {
      CountersAreConsecutive(worlds, ops, i - 1);
      SendsAtMostOne(worlds[i - 1].engine, ops[i - 1]);
      SuccWraps(worlds[0].engine.counter + |worlds[i - 1].log|);
    }
  }

  lemma {:induction false} SuccWraps(n: nat)
    ensures Succ(n % U32) == (n + 1) % U32
  {
  }

  lemma {:induction false} SendsAtMostOne(e: Engine, op: Op)
    requires e.Valid()
    ensures var r := Sends(e, op);
      && |r.send| <= 1
      && (r.send == [] ==> r.engine.counter == e.counter)
      && (r.send != [] ==> r.send[0].counter == e.counter && r.engine.counter == Succ(e.counter))
  {
  }

  // On the wire.

  lemma {:induction false} FlagsAre(f: Frame)
    ensures f.flags == FLAGS_MANAGE ==> f.A() && f.W() && !f.Report() && f.Hops() == 0
    ensures f.flags in {FLAGS_ACK, FLAGS_EVENT_ACK, FLAGS_DWS_ACK} ==> f.A() && !f.W() && !f.Report() && f.Hops() == 0
    ensures f.flags == FLAGS_COMMAND ==> !f.A() && f.W() && !f.Report() && f.Hops() == 1
  {
  }

  lemma {:induction false} ReactFlags(n: Node, rx: Frame, now: int, fetched: Option<seq<seq<byte>>>, alarmSiren: nat)
    requires ValidSensor(n.sensor)
    ensures var r := React(n, rx, now, fetched, alarmSiren).reply;
      r.flags == FLAGS_MANAGE
      || (r.flags in {FLAGS_ACK, FLAGS_EVENT_ACK, FLAGS_DWS_ACK} && r.wflags == 0 && r.payload == [])
  {
  }

  /** Every frame the engine sends comes through the wire format whole exactly
      while its counter is below 2^31, and, for one of its own accord, if the
      sensor has an address. */
  lemma {:induction false} SentFramesSurvive(e: Engine, op: Op)
    requires e.Valid() && ValidOp(op)
    ensures forall k :: 0 <= k < |Sends(e, op).send| ==>
      var f := Sends(e, op).send[k];
      && f.Valid()
      && (Decode(Encode(f)) == Some(f) <==> f.counter < HALF && (f.flags == FLAGS_COMMAND ==> f.gwDst != 0))
  {
    var r := Sends(e, op);
    if r.send != [] {
      SendsAtMostOne(e, op);
      var f := r.send[0];
      if op.Receives? {
        ReactFlags(e.nodes[op.rx.src], op.rx, op.now, op.fetched, e.alarmSiren);
      }
      FlagsAre(f);
      RoundTripExactly(f);
      LongEnough(f);
    }
  }

  lemma {:induction false} LongEnough(f: Frame)
    requires f.Valid() && (f.A() || f.W())
    ensures |Encode(f)| >= 8
  {
  }
}
