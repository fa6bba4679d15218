/** The engine, the driver and the siren together, over every run: commands
    reach the siren in order, late; its reports come in any order, repeated or
    never; the camera restarts at any time. */

module AlarmInvariants {
  import opened Wrappers
  import S = Siren
  import opened AlarmModel

  /** The timers that still count: those of the current generation. */
  function Live(timers: seq<Timer>, gen: nat): seq<Timer>
    decreases |timers|
  {
    if timers == [] then []
    else
      var n := |timers| - 1;
      Live(timers[..n], gen) + if timers[n].gen == gen then [timers[n]] else []
  }

  predicate NoneAfter(timers: seq<Timer>, gen: nat) {
    forall t :: t in timers ==> t.gen <= gen
  }

  lemma {:induction false} LiveLater(timers: seq<Timer>, gen: nat, later: nat)
    requires NoneAfter(timers, gen) && gen < later
    ensures Live(timers, later) == []
    decreases |timers|
  {
    if timers != [] { LiveLater(timers[..|timers| - 1], gen, later); }
  }

  lemma {:induction false} LivePush(timers: seq<Timer>, t: Timer, gen: nat)
    ensures Live(timers + [t], gen) == Live(timers, gen) + if t.gen == gen then [t] else []
  {
    assert (timers + [t])[..|timers|] == timers;
  }

  lemma {:induction false} LiveDrop(timers: seq<Timer>, i: nat, gen: nat)
    requires i < |timers|
    ensures timers[i].gen != gen ==> Live(timers[..i] + timers[i + 1..], gen) == Live(timers, gen)
    ensures timers[i].gen == gen ==>
      |Live(timers[..i] + timers[i + 1..], gen)| == |Live(timers, gen)| - 1 && timers[i] in Live(timers, gen)
    decreases |timers|
  {
    var n := |timers| - 1;
    var rest := timers[..i] + timers[i + 1..];
    if i == n {
      assert rest == timers[..n];
    } else {
      assert rest[..|rest| - 1] == timers[..n][..i] + timers[..n][i + 1..];
      LiveDrop(timers[..n], i, gen);
    }
  }

  /** The one live timer of a delay: it ends at the deadline, or the margin
      after, and has not run out. */
  predicate Counting(e: Engine, kind: TimerKind, now: int) {
    var live := Live(e.timers, e.timerGen);
    && |live| == 1 && live[0].kind == kind && e.deadline.Some?
    && live[0].due - e.deadline.value in {0, SIREN_MARGIN}
    && now <= live[0].due
  }

  predicate Timed(e: Engine, now: int) {
    match e.state
    case Arming => Counting(e, ExitOver, now)
    case Pending => Counting(e, EntryOver, now)
    case _ => Live(e.timers, e.timerGen) == []
  }

  /** What a restart makes of a state file. */
  datatype Image = Image(state: State, mode: Mode, armedAt: int, trigBy: int)

  function ImageOf(disk: Disk): Image {
    if disk.File? then
      var e := New(disk).Restored(disk.p);
      Image(e.state, e.mode, e.armedAt, e.trigBy)
    else Image(Disarmed, NoMode, 0, 0)
  }

  /** The file says of the alarm all a restart needs. */
  predicate Stored(e: Engine) {
    ImageOf(e.disk) == ImageOf(File(e.Persist()))
  }

  predicate EngineOk(e: Engine, cfg: SensorConfig, now: int) {
    && (e.state.Disarmed? <==> e.mode.NoMode?)
    && (e.InArmed() ==> e.state == StateOf(e.mode))
    && (e.InArmed() ==> e.InAlarm(cfg, e.mode) == {})
    && e.armingDelay > 0 && e.pendingDelay > 0
    && NoneAfter(e.timers, e.timerGen)
    && (!e.closed ==> Timed(e, now))
  }

  predicate Alerts(calls: seq<Call>) {
    calls == [] || calls == [CallEntryDelay] || calls == [CallAlert]
  }

  /** What an engine step tells the siren: it is armed exactly when a command
      arms the alarm or changes its mode, disarmed exactly when one disarms it. */
  predicate Told(e: Engine, r: Effect) {
    if r.engine.state.Disarmed? then
      r.calls == if e.state.Disarmed? then [] else [CallDisarm]
    else
      (!e.state.Disarmed? && e.mode == r.engine.mode && Alerts(r.calls))
      || (e.mode != r.engine.mode && r.calls != [] && Alerts(r.calls[1..])
          && r.calls[0].CallArm? && r.calls[0].night == r.engine.mode.Night?
          && (r.calls[0].delayed ==> e.state.Disarmed?))
  }

  predicate Stores(e: Engine, r: Effect, env: Env) {
    && (r.engine.closed == e.closed)
    && (r.engine.timerGen != e.timerGen && !e.closed && env.writable ==> Stored(r.engine))
    && (r.engine.timerGen == e.timerGen ==> r.engine.disk == e.disk && r.engine.Persist() == e.Persist())
  }

  /** The alarm only moves forward, in the same mode once it is under way. */
  predicate Forwards(e: Engine, f: Engine) {
    && Rank(e.state) <= Rank(f.state)
    && (e.state.Disarmed? || e.InArmed() || e.mode == f.mode)
  }

  predicate StepOk(e: Engine, r: Effect, cfg: SensorConfig, env: Env) {
    EngineOk(r.engine, cfg, env.now) && Told(e, r) && Stores(e, r, env)
  }

  lemma {:induction false} TransitionLive(e: Engine, s: State, env: Env)
    requires NoneAfter(e.timers, e.timerGen)
    ensures Live(e.Transition(s, env).timers, e.Transition(s, env).timerGen) == []
  {
    LiveLater(e.timers, e.timerGen, e.timerGen + 1);
  }

  lemma {:induction false} EntryTimerOk(e: Engine, cfg: SensorConfig, env: Env)
    requires e.state.Pending? && !e.mode.NoMode? && NoneAfter(e.timers, e.timerGen) && Live(e.timers, e.timerGen) == []
    requires e.armingDelay > 0 && e.pendingDelay > 0 && e.deadline == Some(env.now + e.pendingDelay)
    ensures EngineOk(e.EntryTimer(env), cfg, env.now)
    ensures e.EntryTimer(env).Persist() == e.Persist() && e.EntryTimer(env).disk == e.disk
  {
    LivePush(e.timers, Timer(e.timerGen, e.deadline.value + e.Margin(env), EntryOver), e.timerGen);
  }

  lemma {:induction false} EntryDelayOk(e: Engine, cfg: SensorConfig, env: Env)
    requires NoneAfter(e.timers, e.timerGen) && e.armingDelay > 0 && e.pendingDelay > 0 && !e.mode.NoMode?
    ensures var f := e.Transition(Pending, env).EntryTimer(env);
      EngineOk(f, cfg, env.now) && (!e.closed && env.writable ==> Stored(f))
  {
    TransitionLive(e, Pending, env);
    EntryTimerOk(e.Transition(Pending, env), cfg, env);
  }

  lemma {:induction false} TriggerOk(e: Engine, cfg: SensorConfig, env: Env)
    requires NoneAfter(e.timers, e.timerGen) && e.armingDelay > 0 && e.pendingDelay > 0 && !e.mode.NoMode?
    ensures var f := e.Transition(Triggered, env);
      EngineOk(f, cfg, env.now) && (!e.closed && env.writable ==> Stored(f))
  {
    TransitionLive(e, Triggered, env);
  }

  /** A sensor in alarm while armed: the alarm is under way after it. */
  lemma {:induction false} FirstAlarmOk(e: Engine, cfg: SensorConfig, id: int, env: Env)
    requires NoneAfter(e.timers, e.timerGen) && e.armingDelay > 0 && e.pendingDelay > 0
    requires !e.mode.NoMode? && e.InArmed() && e.state == StateOf(e.mode)
    ensures var r := e.FirstAlarm(cfg, id, env);
      EngineOk(r.engine, cfg, env.now) && Rank(r.engine.state) >= 3 && r.engine.mode == e.mode
      && Alerts(r.calls) && r.engine.closed == e.closed && r.engine.timerGen != e.timerGen
      && r.engine.timerGen > e.timerGen && (!e.closed && env.writable ==> Stored(r.engine))
  {
    var f := e.(trigBy := id);
    EntryDelayOk(f, cfg, env);
    TriggerOk(f, cfg, env);
  }

  lemma {:induction false} SensorAlarmOk(e: Engine, cfg: SensorConfig, id: int, env: Env)
    requires EngineOk(e.(lastAlarm := map[]), cfg, env.now) && !e.state.Disarmed?
    requires !e.state.Arming?
    ensures var r := e.SensorAlarm(cfg, id, env);
      StepOk(e, r, cfg, env) && Forwards(e, r.engine)
  {
    if e.InArmed() {
      FirstAlarmOk(e, cfg, id, env);
    } else {
      TriggerOk(e, cfg, env);
    }
  }

  lemma {:induction false} QuietModeOk(e: Engine, cfg: SensorConfig, env: Env)
    requires NoneAfter(e.timers, e.timerGen) && e.armingDelay > 0 && e.pendingDelay > 0 && !e.mode.NoMode?
    requires e.InAlarm(cfg, e.mode) == {}
    ensures var f := e.Transition(StateOf(e.mode), env);
      EngineOk(f, cfg, env.now) && (!e.closed && env.writable ==> Stored(f))
  {
    TransitionLive(e, StateOf(e.mode), env);
    var f := e.Transition(StateOf(e.mode), env);
    assert f.InAlarm(cfg, f.mode) == e.InAlarm(cfg, e.mode);
  }

  /** Entering an armed mode, then the alarms seen before: none is forgotten. */
  lemma {:induction false} EnterModeOk(e: Engine, cfg: SensorConfig, pick: Option<int>, env: Env)
    requires NoneAfter(e.timers, e.timerGen) && e.armingDelay > 0 && e.pendingDelay > 0 && !e.mode.NoMode?
    requires Picks(e.InAlarm(cfg, e.mode), pick)
    ensures var r := e.Transition(StateOf(e.mode), env).StillInAlarm(cfg, pick, env);
      EngineOk(r.engine, cfg, env.now) && Rank(r.engine.state) >= 2 && r.engine.mode == e.mode
      && Alerts(r.calls) && r.engine.closed == e.closed && r.engine.timerGen > e.timerGen
      && (!e.closed && env.writable ==> Stored(r.engine))
      && (e.InAlarm(cfg, e.mode) != {} ==> Rank(r.engine.state) >= 3 && r.engine.trigBy in e.InAlarm(cfg, e.mode))
  {
    var f := e.Transition(StateOf(e.mode), env);
    assert f.InAlarm(cfg, f.mode) == e.InAlarm(cfg, e.mode);
    if pick.Some? { FirstAlarmOk(f, cfg, pick.value, env); } else { QuietModeOk(e, cfg, env); }
  }

  predicate ValidCmdPick(e: Engine, cfg: SensorConfig, cmd: Cmd, pick: Option<int>) {
    cmd.ArmCmd? ==> Picks(e.InAlarm(cfg, if cmd.night then Night else Away), pick)
  }

  lemma {:induction false} ArmedByCommand(e: Engine, cfg: SensorConfig, m: Mode, pick: Option<int>, env: Env)
    requires EngineOk(e, cfg, env.now) && !m.NoMode? && Picks(e.InAlarm(cfg, m), pick)
    ensures e.state.Disarmed? ==>
      StepOk(e, e.ArmAtOnce(cfg, m, pick, env), cfg, env)
    ensures e.InArmed() ==>
      var r := e.SwitchMode(cfg, m, pick, env);
      StepOk(e, r, cfg, env) && Forwards(e, r.engine)
  {
    if e.state.Disarmed? {
      var f := e.(mode := m, trigBy := 0, armedAt := env.now);
      assert f.InAlarm(cfg, m) == e.InAlarm(cfg, m);
      EnterModeOk(f, cfg, pick, env);
    } else if e.InArmed() && e.state != StateOf(m) {
      var f := e.(mode := m);
      assert f.InAlarm(cfg, m) == e.InAlarm(cfg, m);
      EnterModeOk(f, cfg, pick, env);
    }
  }

  lemma {:induction false} StartArmingOk(e: Engine, cfg: SensorConfig, m: Mode, env: Env)
    requires EngineOk(e, cfg, env.now) && !m.NoMode? && e.state.Disarmed?
    ensures StepOk(e, e.StartArming(m, env), cfg, env)
  {
    var f := e.(mode := m, trigBy := 0);
    TransitionLive(f, Arming, env);
    var g := f.Transition(Arming, env);
    LivePush(g.timers, Timer(g.timerGen, env.now + (e.armingDelay + g.Margin(env)), ExitOver), g.timerGen);
  }

  lemma {:induction false} DisarmOk(e: Engine, cfg: SensorConfig, env: Env)
    requires EngineOk(e, cfg, env.now) && !e.state.Disarmed?
    ensures StepOk(e, Effect(e.Transition(Disarmed, env), [CallDisarm]), cfg, env)
  {
    TransitionLive(e, Disarmed, env);
  }

  lemma {:induction false} CommandOk(e: Engine, cfg: SensorConfig, cmd: Cmd, local: bool, pick: Option<int>, env: Env)
    requires EngineOk(e, cfg, env.now) && ValidCmdPick(e, cfg, cmd, pick)
    ensures StepOk(e, e.Command(cfg, cmd, local, pick, env), cfg, env)
    ensures !cmd.DisarmCmd? ==> Forwards(e, e.Command(cfg, cmd, local, pick, env).engine)
  {
    match cmd {
      case DisarmCmd => if !e.state.Disarmed? { DisarmOk(e, cfg, env); }
      case UnknownCmd =>
      case ArmCmd(night) =>
        var m := if night then Night else Away;
        if e.state.Disarmed? && local {
          StartArmingOk(e, cfg, m, env);
        } else {
          ArmedByCommand(e, cfg, m, pick, env);
        }
    }
  }

  lemma {:induction false} SensorEventOk(e: Engine, cfg: SensorConfig, id: int, keypad: bool, inAlarm: bool, env: Env)
    requires EngineOk(e, cfg, env.now)
    ensures var r := e.SensorEvent(cfg, id, keypad, inAlarm, env);
      StepOk(e, r, cfg, env) && Forwards(e, r.engine)
  {
    if !keypad {
      var f := e.(lastAlarm := e.lastAlarm[id := inAlarm]);
      if inAlarm && f.Watched(cfg, id) && !e.state.Disarmed? && !e.state.Arming? {
        assert EngineOk(f.(lastAlarm := map[]), cfg, env.now);
        SensorAlarmOk(f, cfg, id, env);
      } else if e.InArmed() {
        assert f.InAlarm(cfg, e.mode) <= e.InAlarm(cfg, e.mode);
      }
    }
  }

  lemma {:induction false} SirenReportOk(e: Engine, cfg: SensorConfig, s: S.SirenState, pick: Option<int>, env: Env)
    requires EngineOk(e, cfg, env.now) && Picks(e.InAlarm(cfg, e.mode), pick)
    ensures var r := e.SirenReport(cfg, s, pick, env);
      StepOk(e, r, cfg, env) && Forwards(e, r.engine)
  {
    if s.Armed? && e.state.Arming? {
      var f := e.(armedAt := env.now);
      assert f.InAlarm(cfg, f.mode) == e.InAlarm(cfg, e.mode);
      EnterModeOk(f, cfg, pick, env);
    } else if s.EntryDelay? && e.InArmed() {
      EntryDelayOk(e, cfg, env);
    } else if (s.Alert? || s.AlertOver?) && !e.state.Disarmed? && !e.state.Triggered? {
      TriggerOk(e, cfg, env);
    }
  }

  lemma {:induction false} FireOk(e: Engine, cfg: SensorConfig, i: nat, pick: Option<int>, env: Env)
    requires EngineOk(e, cfg, env.now) && Picks(e.InAlarm(cfg, e.mode), pick)
    requires i < |e.timers|
    ensures var r := e.Fire(cfg, i, pick, env);
      && StepOk(e, r, cfg, env) && Forwards(e, r.engine)
      && (e.timers[i].gen != e.timerGen ==> r.engine == e.(timers := r.engine.timers) && r.calls == [])
      && (e.timers[i].gen == e.timerGen && !e.closed ==> Rank(e.state) < Rank(r.engine.state))
  {
    LiveDrop(e.timers, i, e.timerGen);
    var f := e.(timers := e.timers[..i] + e.timers[i + 1..]);
    assert NoneAfter(f.timers, f.timerGen);
    assert f.InAlarm(cfg, f.mode) == e.InAlarm(cfg, e.mode);
    if e.timers[i].gen == e.timerGen {
      if e.timers[i].kind.ExitOver? && e.state.Arming? {
        var g := f.(armedAt := env.now);
        assert g.InAlarm(cfg, g.mode) == e.InAlarm(cfg, e.mode);
        EnterModeOk(g, cfg, pick, env);
      } else if e.timers[i].kind.EntryOver? && e.state.Pending? {
        TriggerOk(f, cfg, env);
      }
    }
  }

  /** The file follows the state: a step that changes it leaves the file with
      the new one when it can be written, and as it was otherwise. */
  predicate Written(e: Engine, r: Effect, env: Env) {
    && (r.engine.state == e.state ==> r.engine.disk == e.disk && r.engine.mode == e.mode)
    && (r.engine.state != e.state ==>
         r.engine.disk == if env.writable && !e.closed then File(r.engine.Persist()) else e.disk)
  }

  lemma {:induction false} AlarmWritten(e: Engine, cfg: SensorConfig, id: int, env: Env)
    ensures Written(e, e.SensorAlarm(cfg, id, env), env)
    ensures e.SensorAlarm(cfg, id, env).engine.closed == e.closed
  {
  }

  lemma {:induction false} EnterWritten(e: Engine, f: Engine, cfg: SensorConfig, pick: Option<int>, env: Env)
    requires !f.mode.NoMode? && e.state != StateOf(f.mode) && Rank(e.state) <= 2
    requires f.disk == e.disk && f.closed == e.closed
    ensures Written(e, f.Transition(StateOf(f.mode), env).StillInAlarm(cfg, pick, env), env)
  {
    if pick.Some? { AlarmWritten(f.Transition(StateOf(f.mode), env), cfg, pick.value, env); }
  }

  lemma {:induction false} CommandWritten(e: Engine, cfg: SensorConfig, cmd: Cmd, local: bool, pick: Option<int>,
                                          env: Env)
    ensures Written(e, e.Command(cfg, cmd, local, pick, env), env)
  {
    if cmd.ArmCmd? {
      var m := if cmd.night then Night else Away;
      if e.state.Disarmed? && !local {
        EnterWritten(e, e.(mode := m, trigBy := 0, armedAt := env.now), cfg, pick, env);
      } else if e.InArmed() && e.state != StateOf(m) {
        EnterWritten(e, e.(mode := m), cfg, pick, env);
      }
    }
  }

  lemma {:induction false} SensorEventWritten(e: Engine, cfg: SensorConfig, id: int, keypad: bool, inAlarm: bool,
                                              env: Env)
    ensures Written(e, e.SensorEvent(cfg, id, keypad, inAlarm, env), env)
  {
    if !keypad { AlarmWritten(e.(lastAlarm := e.lastAlarm[id := inAlarm]), cfg, id, env); }
  }

  lemma {:induction false} SirenReportWritten(e: Engine, cfg: SensorConfig, s: S.SirenState, pick: Option<int>,
                                              env: Env)
    ensures Written(e, e.SirenReport(cfg, s, pick, env), env)
  {
    if s.Armed? && e.state.Arming? && !e.mode.NoMode? { EnterWritten(e, e.(armedAt := env.now), cfg, pick, env); }
  }

  lemma {:induction false} FireWritten(e: Engine, cfg: SensorConfig, i: nat, pick: Option<int>, env: Env)
    requires i < |e.timers|
    ensures Written(e, e.Fire(cfg, i, pick, env), env)
  {
    if e.state.Arming? && !e.mode.NoMode? {
      EnterWritten(e, e.(timers := e.timers[..i] + e.timers[i + 1..], armedAt := env.now), cfg, pick, env);
    }
  }

  lemma {:induction false} SensorAlarmKeepsReports(e: Engine, cfg: SensorConfig, pick: Option<int>, env: Env)
    ensures e.StillInAlarm(cfg, pick, env).engine.lastAlarm == e.lastAlarm
  {
  }

  /** The sensors' last reports are kept by all but a disarm. */
  lemma {:induction false} CommandKeepsReports(e: Engine, cfg: SensorConfig, cmd: Cmd, local: bool, pick: Option<int>,
                                               env: Env)
    requires !cmd.DisarmCmd?
    ensures e.Command(cfg, cmd, local, pick, env).engine.lastAlarm == e.lastAlarm
  {
    if cmd.ArmCmd? && !e.state.Disarmed? {
      var m := if cmd.night then Night else Away;
      SensorAlarmKeepsReports(e.(mode := m).Transition(StateOf(m), env), cfg, pick, env);
    } else if cmd.ArmCmd? {
      var m := if cmd.night then Night else Away;
      SensorAlarmKeepsReports(e.(mode := m, trigBy := 0, armedAt := env.now).Transition(StateOf(m), env),
                              cfg, pick, env);
    }
  }

  lemma {:induction false} ReportKeepsReports(e: Engine, cfg: SensorConfig, s: S.SirenState, pick: Option<int>,
                                              env: Env)
    ensures e.SirenReport(cfg, s, pick, env).engine.lastAlarm == e.lastAlarm
  {
    if !e.mode.NoMode? {
      SensorAlarmKeepsReports(e.(armedAt := env.now).Transition(StateOf(e.mode), env), cfg, pick, env);
    }
  }

  lemma {:induction false} FireKeepsReports(e: Engine, cfg: SensorConfig, i: nat, pick: Option<int>, env: Env)
    requires i < |e.timers|
    ensures e.Fire(cfg, i, pick, env).engine.lastAlarm == e.lastAlarm
  {
    if !e.mode.NoMode? {
      var f := e.(timers := e.timers[..i] + e.timers[i + 1..]);
      SensorAlarmKeepsReports(f.(armedAt := env.now).Transition(StateOf(e.mode), env), cfg, pick, env);
    }
  }

  lemma {:induction false} SensorEventKeepsReports(e: Engine, cfg: SensorConfig, id: int, keypad: bool, inAlarm: bool,
                                                   env: Env)
    ensures e.SensorEvent(cfg, id, keypad, inAlarm, env).engine.lastAlarm ==
      if keypad then e.lastAlarm else e.lastAlarm[id := inAlarm]
  {
    SensorAlarmKeepsReports(e.(lastAlarm := e.lastAlarm[id := inAlarm]), cfg, Some(id), env);
  }

  /** A restart from any file gives an engine that is in order, and as the file
      says; from the file of an engine it is never behind that engine. */
  lemma {:induction false} RestoredOk(disk: Disk, cfg: SensorConfig, now: int)
    requires disk.File?
    ensures var e := New(disk).Restored(disk.p);
      && (!e.state.Pending? ==> EngineOk(e, cfg, now))
      && (e.state.Disarmed? <==> e.mode.NoMode?) && (e.state.Pending? ==> !e.mode.NoMode?)
  {
  }

  lemma {:induction false} RestoredStored(disk: Disk)
    requires disk.File?
    ensures Stored(New(disk).Restored(disk.p))
  {
    var e := New(disk).Restored(disk.p);
    if !e.mode.NoMode? { assert FileMode(e.Persist()) == e.mode; }
  }

  lemma {:induction false} RestartEngineOk(disk: Disk, cfg: SensorConfig, env: Env)
    ensures EngineOk(Restart(disk, env).engine, cfg, env.now)
  {
    if disk.File? {
      var e := New(disk).Restored(disk.p);
      RestoredOk(disk, cfg, env.now);
      if e.state.Pending? { EntryTimerOk(e.(deadline := Some(env.now + e.pendingDelay)), cfg, env); }
    }
  }

  lemma {:induction false} RestartOk(disk: Disk, cfg: SensorConfig, env: Env)
    ensures var r := Restart(disk, env);
      && EngineOk(r.engine, cfg, env.now) && Stored(r.engine) && r.engine.disk == disk && !r.engine.closed
      && Image(r.engine.state, r.engine.mode, r.engine.armedAt, r.engine.trigBy) == ImageOf(disk)
      && r.calls == [if r.engine.state.Disarmed? then CallDisarm else CallArm(r.engine.mode.Night?, false)]
  {
    RestartEngineOk(disk, cfg, env);
    if disk.File? {
      RestoredStored(disk);
      assert Restart(disk, env).engine.Persist() == New(disk).Restored(disk.p).Persist();
    }
  }

  /** What a restart finds of an engine whose file was written: an exit delay
      is over. */
  function Lasting(e: Engine): State {
    if !e.state.Arming? then e.state else if e.mode.Night? then ArmedNight else ArmedAway
  }

  lemma {:induction false} FileLasts(e: Engine)
    requires e.state.Disarmed? <==> e.mode.NoMode?
    requires e.InArmed() ==> e.state == StateOf(e.mode)
    ensures var i := ImageOf(File(e.Persist())); i.state == Lasting(e) && i.mode == e.mode
  {
  }

  lemma {:induction false} RestartKeepsRank(e: Engine, cfg: SensorConfig, env: Env)
    requires EngineOk(e, cfg, env.now) && Stored(e)
    ensures var f := Restart(e.disk, env).engine;
      Rank(e.state) <= Rank(f.state) && f.mode == e.mode
      && (!e.state.Disarmed? ==> f.armedAt == e.armedAt)
      && (Rank(e.state) >= 3 ==> f.state == e.state && f.trigBy == e.trigBy)
  {
    RestartOk(e.disk, cfg, env);
  }
}

module AlarmSystem {
  import opened Wrappers
  import S = Siren
  import D = DriverModel
  import opened AlarmModel
  import opened AlarmInvariants

  predicate Arms(commands: seq<S.Command>) {
    exists i :: 0 <= i < |commands| && commands[i].DoArm?
  }

  /** A state and a mode, as a restart finds them. */
  datatype Saved = Saved(state: State, mode: Mode)

  /** saved: of the last change of state that could be written, or of the last
      restart. rearms: when a report made the driver arm the siren again, no
      arming being delayed, since the last restart. */
  datatype World = World(engine: Engine, driver: D.Driver, siren: S.Siren, queue: seq<S.Command>, present: bool,
                         writable: bool, now: int, cfg: SensorConfig, saved: Saved, rearms: seq<int>)
  {
    function Env(): Env { AlarmModel.Env(now, present, writable) }

    /** The siren once everything sent to it has arrived. */
    function Drained(): S.Siren { S.Drain(siren, queue) }

    function Steer(r: Effect): World {
      var f := Forward(driver, present, r.calls);
      this.(engine := r.engine, driver := f.driver, queue := queue + f.commands,
            saved := if r.engine.state != engine.state && writable && !engine.closed then SavedOf(r.engine) else saved)
    }

    function Drive(r: D.Effect): World {
      this.(driver := r.driver, queue := queue + r.commands,
            rearms := if driver.delayed.None? && Arms(r.commands) then rearms + [now] else rearms)
    }

    /** Whether a restart now would find the alarm no lower and in its mode. */
    predicate Survives() {
      saved.mode == engine.mode && Rank(engine.state) <= Rank(saved.state)
    }

    /** Restarted: a new driver, which heard perhaps a report before the engine
        was loaded; of what was queued, left is what still reaches the siren. */
    function Reboot(heard: Option<S.SirenState>, left: seq<S.Command>): World {
      var r := Restart(engine.disk, Env());
      var f := Forward(D.NEW.(last := heard), present, r.calls);
      this.(engine := r.engine, driver := f.driver, queue := left + f.commands,
            saved := SavedOf(r.engine), rearms := [])
    }
  }

  function SavedOf(e: Engine): Saved { Saved(Lasting(e), e.mode) }

  datatype Step =
    | Restarts(heard: Option<S.SirenState>, left: seq<S.Command>)
    | Commands(cmd: Cmd, local: bool, pick: Option<int>)
    | Senses(id: int, keypad: bool, inAlarm: bool)
    | ReportsToDriver(s: S.SirenState)
    | ReportsToEngine(s: S.SirenState, pick: Option<int>)
    | Fires(i: nat, pick: Option<int>)
    | Retries(i: nat)
    | Delivers
    | SirenMoves(to: S.Siren)
    | Ticks(until: int)
    | SirenPresence(p: bool)
    | DiskAccess(ok: bool)
    | SetsTimings(arming: int, pending: int)
    | Closes

  /** Nothing is due before t, so the clock may reach it. */
  predicate NothingDue(w: World, t: int) {
    && (forall x :: x in Live(w.engine.timers, w.engine.timerGen) ==> t <= x.due)
    && (forall x :: x in w.driver.timers ==> t <= x)
  }

  /** A report is any state at any time: late, repeated, reordered, never. */
  predicate Enabled(w: World, st: Step) {
    match st
    case Commands(cmd, _, pick) => ValidCmdPick(w.engine, w.cfg, cmd, pick)
    case ReportsToEngine(_, pick) => Picks(w.engine.InAlarm(w.cfg, w.engine.mode), pick)
    case Fires(i, pick) => i < |w.engine.timers| && Picks(w.engine.InAlarm(w.cfg, w.engine.mode), pick)
    case Retries(i) => i < |w.driver.timers|
    case Delivers => w.queue != []
    case SirenMoves(t) => S.Moves(w.siren, t)
    case Ticks(t) => w.now <= t && NothingDue(w, t)
    case _ => true
  }

  function Next(w: World, st: Step): World
    requires Enabled(w, st)
  {
    match st
    case Restarts(heard, left) => w.Reboot(heard, left)
    case Commands(cmd, local, pick) => w.Steer(w.engine.Command(w.cfg, cmd, local, pick, w.Env()))
    case Senses(id, keypad, inAlarm) => w.Steer(w.engine.SensorEvent(w.cfg, id, keypad, inAlarm, w.Env()))
    case ReportsToDriver(s) => w.Drive(w.driver.HandleReport(s, w.present, w.now))
    case ReportsToEngine(s, pick) => w.Steer(w.engine.SirenReport(w.cfg, s, pick, w.Env()))
    case Fires(i, pick) => w.Steer(w.engine.Fire(w.cfg, i, pick, w.Env()))
    case Retries(i) => w.Drive(w.driver.RetryFires(i))
    case Delivers => w.(siren := S.Apply(w.siren, w.queue[0]), queue := w.queue[1..])
    case SirenMoves(t) => w.(siren := t)
    case Ticks(t) => w.(now := t)
    case SirenPresence(p) => w.(present := p)
    case DiskAccess(ok) => w.(writable := ok)
    case SetsTimings(a, p) => w.(engine := w.engine.SetTimings(a, p))
    case Closes => w.(engine := w.engine.Close())
  }

  /** The driver wants what the engine's state asks for. */
  predicate Agree(e: Engine, d: D.Driver) {
    if e.state.Disarmed? then d.want.WantOff? else d.want.WantArmed? && d.night == e.mode.Night?
  }

  predicate Spaced(rearms: seq<int>, last: Option<int>) {
    && (forall i :: 0 < i < |rearms| ==> rearms[i - 1] + D.REARM_EVERY <= rearms[i])
    && last == if rearms == [] then None else Some(rearms[|rearms| - 1])
  }

  predicate RetriesOk(d: D.Driver, now: int) {
    && d.Valid()
    && (forall t :: t in d.timers ==> now <= t <= now + D.REARM_EVERY)
    && (d.lastRearm.Some? ==> d.lastRearm.value <= now)
  }

  predicate Inv(w: World) {
    && EngineOk(w.engine, w.cfg, w.now)
    && Agree(w.engine, w.driver)
    && RetriesOk(w.driver, w.now)
    && (w.driver.want.WantOff? ==> S.Settled(w.siren, w.queue))
    && ImageOf(w.engine.disk).state == w.saved.state && ImageOf(w.engine.disk).mode == w.saved.mode
    && Spaced(w.rearms, w.driver.lastRearm)
  }

  predicate SameRetries(d: D.Driver, f: D.Driver) {
    f.timers == d.timers && f.retrying == d.retrying && f.lastRearm == d.lastRearm
  }

  lemma {:induction false} OneAgrees(d: D.Driver, present: bool, call: Call)
    ensures var f := One(d, present, call).driver;
      && SameRetries(d, f)
      && match call
         case CallArm(night, _) => f.want.WantArmed? && f.night == night
         case CallDisarm => f.want.WantOff?
         case _ => f.want == d.want && f.night == d.night
  {
  }

  lemma {:induction false} AlertsAgree(d: D.Driver, present: bool, calls: seq<Call>)
    requires Alerts(calls)
    ensures var f := Forward(d, present, calls).driver;
      SameRetries(d, f) && f.want == d.want && f.night == d.night
  {
    if calls != [] {
      ForwardOne(d, present, calls[0]);
      OneAgrees(d, present, calls[0]);
    }
  }

  /** The engine's calls leave the driver wanting what the engine wants. */
  lemma {:induction false} ForwardAgrees(e: Engine, r: Effect, d: D.Driver, present: bool)
    requires Told(e, r) && Agree(e, d)
    ensures var f := Forward(d, present, r.calls).driver; Agree(r.engine, f) && SameRetries(d, f)
  {
    if Alerts(r.calls) {
      AlertsAgree(d, present, r.calls);
    } else {
      var a, b := r.calls[0], r.calls[1..];
      assert r.calls == [a] + b;
      ForwardTwo(d, present, a, b);
      OneAgrees(d, present, a);
      AlertsAgree(One(d, present, a).driver, present, b);
    }
  }

  lemma {:induction false} SteerOk(w: World, r: Effect)
    requires Inv(w) && StepOk(w.engine, r, w.cfg, w.Env()) && Written(w.engine, r, w.Env())
    ensures Inv(w.Steer(r))
  {
    FileLasts(r.engine);
    ForwardAgrees(w.engine, r, w.driver, w.present);
    if r.engine.state.Disarmed? {
      if r.calls == [] {
        assert w.queue + [] == w.queue;
      } else {
        ForwardOne(w.driver, w.present, CallDisarm);
        D.DisarmSettles(w.driver, w.siren, w.queue);
      }
    }
  }

  /** The one call of a restart. */
  lemma {:induction false} RebootCalls(e: Engine, d: D.Driver, present: bool, siren: S.Siren, left: seq<S.Command>,
                                       calls: seq<Call>)
    requires calls == [if e.state.Disarmed? then CallDisarm else CallArm(e.mode.Night?, false)]
    ensures var f := Forward(d, present, calls);
      && Agree(e, f.driver) && SameRetries(d, f.driver)
      && (f.driver.want.WantOff? ==> S.Settled(siren, left + f.commands))
  {
    ForwardOne(d, present, calls[0]);
    OneAgrees(d, present, calls[0]);
    if e.state.Disarmed? { D.DisarmSettles(d, siren, left); }
  }

  lemma {:induction false} RebootOk(w: World, heard: Option<S.SirenState>, left: seq<S.Command>)
    ensures Inv(w.Reboot(heard, left))
  {
    RestartOk(w.engine.disk, w.cfg, w.Env());
    var r := Restart(w.engine.disk, w.Env());
    RebootCalls(r.engine, D.NEW.(last := heard), w.present, w.siren, left, r.calls);
  }

  lemma {:induction false} ReportRetries(d: D.Driver, s: S.SirenState, present: bool, now: int, rearms: seq<int>)
    requires RetriesOk(d, now) && Spaced(rearms, d.lastRearm)
    ensures var r := d.HandleReport(s, present, now);
      var f := r.driver;
      && f.want == d.want && f.night == d.night && RetriesOk(f, now)
      && Spaced(if d.delayed.None? && Arms(r.commands) then rearms + [now] else rearms, f.lastRearm)
  {
    var r := d.HandleReport(s, present, now);
    if d.want.WantArmed? && s.Off? && present && d.delayed.None? && d.Wait(now) <= 0 {
      assert r.commands[0].DoArm?;
    } else if d.delayed.None? {
      assert !Arms(r.commands);
    }
  }

  lemma {:induction false} DriveOk(w: World, r: D.Effect)
    requires Inv(w)
    requires r.driver.want == w.driver.want && r.driver.night == w.driver.night && RetriesOk(r.driver, w.now)
    requires w.driver.want.WantOff? ==> S.Settled(w.siren, w.queue + r.commands)
    requires Spaced(w.Drive(r).rearms, r.driver.lastRearm)
    ensures Inv(w.Drive(r))
  {
  }

  lemma {:induction false} ReportOk(w: World, s: S.SirenState)
    requires Inv(w)
    ensures Inv(w.Drive(w.driver.HandleReport(s, w.present, w.now)))
  {
    ReportRetries(w.driver, s, w.present, w.now, w.rearms);
    if w.driver.want.WantOff? { D.OffSendsNoArming(w.driver, s, w.present, w.now, w.siren, w.queue); }
    DriveOk(w, w.driver.HandleReport(s, w.present, w.now));
  }

  lemma {:induction false} RetryOk(w: World, i: nat)
    requires Inv(w) && i < |w.driver.timers|
    ensures Inv(w.Drive(w.driver.RetryFires(i)))
  {
    if w.driver.want.WantOff? { D.OffSendsNoArming(w.driver, S.Off, w.present, w.now, w.siren, w.queue); }
    DriveOk(w, w.driver.RetryFires(i));
  }

  lemma {:induction false} SirenStepOk(w: World, siren: S.Siren, queue: seq<S.Command>)
    requires Inv(w) && (w.driver.want.WantOff? ==> S.Settled(siren, queue))
    ensures Inv(w.(siren := siren, queue := queue))
  {
  }

  lemma {:induction false} TickOk(w: World, t: int)
    requires Inv(w) && w.now <= t && NothingDue(w, t)
    ensures Inv(w.(now := t))
  {
  }

  lemma {:induction false} EngineSettingOk(w: World, e: Engine)
    requires Inv(w)
    requires e == w.engine.Close() || exists a, p :: e == w.engine.SetTimings(a, p)
    ensures Inv(w.(engine := e))
  {
    assert e.InAlarm(w.cfg, e.mode) == w.engine.InAlarm(w.cfg, w.engine.mode);
    assert e.Persist() == w.engine.Persist();
    assert EngineOk(e, w.cfg, w.now);
  }

  lemma {:induction false} OtherOk(w: World, st: Step)
    requires Inv(w) && Enabled(w, st)
    requires st.Delivers? || st.SirenMoves? || st.Ticks? || st.SirenPresence? || st.DiskAccess?
             || st.SetsTimings? || st.Closes?
    ensures Inv(Next(w, st))
  {
    match st {
      case Delivers =>
        if w.driver.want.WantOff? { S.SettledDeliver(w.siren, w.queue); }
        SirenStepOk(w, S.Apply(w.siren, w.queue[0]), w.queue[1..]);
      case SirenMoves(to) =>
        if w.driver.want.WantOff? { S.SettledMoves(w.siren, to, w.queue); }
        SirenStepOk(w, to, w.queue);
      case Ticks(t) => TickOk(w, t);
      case SetsTimings(a, p) => EngineSettingOk(w, w.engine.SetTimings(a, p));
      case Closes => EngineSettingOk(w, w.engine.Close());
      case _ =>
    }
  }

  /** What every step keeps. */
  lemma {:induction false} InvStep(w: World, st: Step)
    requires Inv(w) && Enabled(w, st)
    ensures Inv(Next(w, st))
  {
    var e, cfg, env := w.engine, w.cfg, w.Env();
    match st {
      case Restarts(heard, left) => RebootOk(w, heard, left);
      case Commands(cmd, local, pick) =>
        CommandOk(e, cfg, cmd, local, pick, env);
        CommandWritten(e, cfg, cmd, local, pick, env);
        SteerOk(w, e.Command(cfg, cmd, local, pick, env));
      case Senses(id, keypad, inAlarm) =>
        SensorEventOk(e, cfg, id, keypad, inAlarm, env);
        SensorEventWritten(e, cfg, id, keypad, inAlarm, env);
        SteerOk(w, e.SensorEvent(cfg, id, keypad, inAlarm, env));
      case ReportsToEngine(s, pick) =>
        SirenReportOk(e, cfg, s, pick, env);
        SirenReportWritten(e, cfg, s, pick, env);
        SteerOk(w, e.SirenReport(cfg, s, pick, env));
      case Fires(i, pick) =>
        FireOk(e, cfg, i, pick, env);
        FireWritten(e, cfg, i, pick, env);
        SteerOk(w, e.Fire(cfg, i, pick, env));
      case ReportsToDriver(s) => ReportOk(w, s);
      case Retries(i) => RetryOk(w, i);
      case _ => OtherOk(w, st);
    }
  }

  /** A run: from a restart, on whatever file and with whatever siren, any
      sequence of steps. */
  ghost predicate Run(worlds: seq<World>, steps: seq<Step>) {
    && |worlds| == |steps| + 1
    && (exists w: World, heard, left :: worlds[0] == w.Reboot(heard, left))
    && forall i :: 0 <= i < |steps| ==> Enabled(worlds[i], steps[i]) && worlds[i + 1] == Next(worlds[i], steps[i])
  }

  lemma {:induction false} InvRun(worlds: seq<World>, steps: seq<Step>, i: nat)
    requires Run(worlds, steps) && i < |worlds|
    ensures Inv(worlds[i])
  {
    if i == 0 {
      var w: World, heard, left :| worlds[0] == w.Reboot(heard, left);
      RebootOk(w, heard, left);
    } else {
      InvRun(worlds, steps, i - 1);
      InvStep(worlds[i - 1], steps[i - 1]);
    }
  }

  /** A disarmed alarm silences the siren: on every run, once what is queued has
      arrived, the siren is off or playing its test sound; and the driver wants
      the siren as the engine's state and mode say. */
  lemma {:induction false} DisarmedSirenEndsOff(worlds: seq<World>, steps: seq<Step>, i: nat)
    requires Run(worlds, steps) && i < |worlds|
    ensures Agree(worlds[i].engine, worlds[i].driver)
    ensures worlds[i].engine.state.Disarmed? ==> worlds[i].Drained().state in {S.Off, S.Test}
  {
    InvRun(worlds, steps, i);
    var w := worlds[i];
    if w.engine.state.Disarmed? { S.SettledDrainsOff(w.siren, w.queue); }
  }

  lemma {:induction false} CallsKeepOn(d: D.Driver, calls: seq<Call>, c: S.Siren, queue: seq<S.Command>)
    requires S.Drain(c, queue).On() && CallDisarm !in calls
    ensures S.Drain(c, queue + Forward(d, true, calls).commands).On()
    decreases |calls|
  {
    if calls == [] {
      assert queue + [] == queue;
    } else {
      var n := |calls| - 1;
      CallsKeepOn(d, calls[..n], c, queue);
      var r := Forward(d, true, calls[..n]);
      var s := One(r.driver, true, calls[n]);
      assert queue + (r.commands + s.commands) == (queue + r.commands) + s.commands;
      OneKeepsOn(r.driver, calls[n], c, queue + r.commands);
    }
  }

  lemma {:induction false} OneKeepsOn(d: D.Driver, call: Call, c: S.Siren, queue: seq<S.Command>)
    requires S.Drain(c, queue).On() && !call.CallDisarm?
    ensures S.Drain(c, queue + One(d, true, call).commands).On()
  {
    var s := One(d, true, call);
    S.DrainAppend(c, queue, s.commands);
    S.DrainFew(S.Drain(c, queue), s.commands);
  }

  lemma {:induction false} SteerKeepsOn(w: World, r: Effect)
    requires w.present && w.Drained().On() && Told(w.engine, r) && !r.engine.state.Disarmed?
    ensures w.Steer(r).Drained().On()
  {
    CallsKeepOn(w.driver, r.calls, w.siren, w.queue);
  }

  lemma {:induction false} MoveKeepsOn(s: S.Siren, t: S.Siren, queue: seq<S.Command>)
    requires S.Moves(s, t) && (s.On() ==> t.On()) && S.Drain(s, queue).On()
    ensures S.Drain(t, queue).On()
  {
    if s.On() {
      S.OnDrainsOn(s, t, queue);
    } else if s.state == t.state {
      S.OffDrainsAlike(s, t, queue);
    } else if s.state.Test? {
      S.TestEndKeepsOn(s, t, queue);
    }
  }

  /** While the alarm is not disarmed and a siren keeps it, no step turns a
      drained siren that is on off: only a disarm does, a reboot of the siren,
      or a restart of the camera that loses what was queued. */
  lemma {:induction false} ArmedSirenStaysOn(w: World, st: Step)
    requires Inv(w) && Enabled(w, st) && w.present && w.Drained().On()
    requires !st.Restarts? && !Next(w, st).engine.state.Disarmed?
    requires st.SirenMoves? && w.siren.On() ==> st.to.On()
    ensures Next(w, st).Drained().On()
  {
    var e, cfg, env := w.engine, w.cfg, w.Env();
    match st {
      case Commands(cmd, local, pick) =>
        CommandOk(e, cfg, cmd, local, pick, env);
        SteerKeepsOn(w, e.Command(cfg, cmd, local, pick, env));
      case Senses(id, keypad, inAlarm) =>
        SensorEventOk(e, cfg, id, keypad, inAlarm, env);
        SteerKeepsOn(w, e.SensorEvent(cfg, id, keypad, inAlarm, env));
      case ReportsToEngine(s, pick) =>
        SirenReportOk(e, cfg, s, pick, env);
        SteerKeepsOn(w, e.SirenReport(cfg, s, pick, env));
      case Fires(i, pick) =>
        FireOk(e, cfg, i, pick, env);
        SteerKeepsOn(w, e.Fire(cfg, i, pick, env));
      case ReportsToDriver(s) => D.ReportKeepsArmed(w.driver, s, w.now, w.siren, w.queue);
      case Retries(i) => D.RetryKeepsArmed(w.driver, i, w.siren, w.queue);
      case SirenMoves(t) => MoveKeepsOn(w.siren, t, w.queue);
      case _ =>
    }
  }

  lemma {:induction false} MoveKeepsMode(s: S.Siren, t: S.Siren, queue: seq<S.Command>)
    requires S.Moves(s, t) && (s.On() ==> t.On()) && S.Drain(s, queue).On()
    ensures S.Drain(t, queue).night == S.Drain(s, queue).night
  {
    if s.On() {
      S.OnDrainsMode(s, t, queue);
    } else if s.state.Test? {
      S.TestDrainsMode(s, t, queue);
    }
  }

  /** The alerts of an engine step arm nothing. */
  lemma {:induction false} AlertsKeepMode(d: D.Driver, calls: seq<Call>, c: S.Siren, queue: seq<S.Command>)
    requires Alerts(calls)
    ensures var before, after := S.Drain(c, queue), S.Drain(c, queue + Forward(d, true, calls).commands);
      after.night == before.night && after.On() == before.On()
  {
    var more := Forward(d, true, calls).commands;
    if calls != [] { ForwardOne(d, true, calls[0]); }
    S.DrainAppend(c, queue, more);
    S.DrainFew(S.Drain(c, queue), more);
  }

  /** What an engine step that changes the mode sends: an arming, then alerts. */
  lemma {:induction false} ArmThenAlerts(w: World, r: Effect) returns (armed: D.Effect)
    requires w.present && Told(w.engine, r) && !r.engine.state.Disarmed? && r.engine.mode != w.engine.mode
    ensures armed == w.driver.Arm(true, r.engine.mode.Night?, r.calls[0].delayed)
    ensures var after := S.Drain(w.siren, w.queue + armed.commands);
      w.Steer(r).Drained().night == after.night && w.Steer(r).Drained().On() == after.On()
    ensures r.calls[0].delayed ==> w.engine.state.Disarmed?
  {
    var a, b := r.calls[0], r.calls[1..];
    armed := One(w.driver, true, a);
    assert r.calls == [a] + b;
    ForwardTwo(w.driver, true, a, b);
    var more := Forward(armed.driver, true, b).commands;
    assert w.queue + (armed.commands + more) == (w.queue + armed.commands) + more;
    AlertsKeepMode(armed.driver, b, w.siren, w.queue + armed.commands);
  }

  /** The mode of a drained siren that is on, after a step. */
  predicate TakesMode(w: World, v: World) {
    v.Drained().night ==
      if v.engine.mode != w.engine.mode && w.driver.Reissues(v.engine.mode.Night?, false) then v.engine.mode.Night?
      else w.Drained().night
  }

  lemma {:induction false} SteerTakesMode(w: World, r: Effect)
    requires Inv(w) && w.present && w.Drained().On() && Told(w.engine, r) && !r.engine.state.Disarmed?
    ensures TakesMode(w, w.Steer(r))
  {
    if w.engine.state.Disarmed? { S.SettledDrainsOff(w.siren, w.queue); }
    if r.engine.mode == w.engine.mode {
      AlertsKeepMode(w.driver, r.calls, w.siren, w.queue);
    } else {
      var armed := ArmThenAlerts(w, r);
      D.ArmOnTakes(w.driver, r.engine.mode.Night?, false, w.siren, w.queue);
    }
  }

  /** What an engine step does to the mode of a drained siren that is on. */
  lemma {:induction false} EngineTakesMode(w: World, st: Step)
    requires Inv(w) && Enabled(w, st) && w.present && w.Drained().On() && !Next(w, st).engine.state.Disarmed?
    requires st.Commands? || st.Senses? || st.ReportsToEngine? || st.Fires?
    ensures TakesMode(w, Next(w, st))
  {
    var e, cfg, env := w.engine, w.cfg, w.Env();
    match st {
      case Commands(cmd, local, pick) =>
        CommandOk(e, cfg, cmd, local, pick, env);
        SteerTakesMode(w, e.Command(cfg, cmd, local, pick, env));
      case Senses(id, keypad, inAlarm) =>
        SensorEventOk(e, cfg, id, keypad, inAlarm, env);
        SteerTakesMode(w, e.SensorEvent(cfg, id, keypad, inAlarm, env));
      case ReportsToEngine(s, pick) =>
        SirenReportOk(e, cfg, s, pick, env);
        SteerTakesMode(w, e.SirenReport(cfg, s, pick, env));
      case Fires(i, pick) =>
        FireOk(e, cfg, i, pick, env);
        SteerTakesMode(w, e.Fire(cfg, i, pick, env));
    }
  }

  /** Any other step leaves its mode alone. */
  lemma {:induction false} OthersKeepMode(w: World, st: Step)
    requires Inv(w) && w.Drained().On() && Guards(w, st)
    requires !(st.Commands? || st.Senses? || st.ReportsToEngine? || st.Fires?)
    ensures TakesMode(w, Next(w, st))
  {
    match st {
      case ReportsToDriver(s) => D.ReportKeepsArmed(w.driver, s, w.now, w.siren, w.queue);
      case Retries(i) => D.RetryKeepsArmed(w.driver, i, w.siren, w.queue);
      case SirenMoves(t) => MoveKeepsMode(w.siren, t, w.queue);
      case _ =>
    }
  }

  /** A step of an alarm that goes on with its siren: no disarm, no restart, no
      reboot of the siren. */
  predicate Guards(w: World, st: Step) {
    && Enabled(w, st) && w.present && !st.Restarts? && !Next(w, st).engine.state.Disarmed?
    && (st.SirenMoves? && w.siren.On() ==> st.to.On())
  }

  lemma {:induction false} GuardTakesMode(w: World, st: Step)
    requires Inv(w) && w.Drained().On() && Guards(w, st)
    ensures Next(w, st).Drained().On() && TakesMode(w, Next(w, st))
  {
    ArmedSirenStaysOn(w, st);
    if st.Commands? || st.Senses? || st.ReportsToEngine? || st.Fires? {
      EngineTakesMode(w, st);
    } else {
      OthersKeepMode(w, st);
    }
  }

  /** The last change of mode between the i-th world and the j-th. */
  function LastSwitch(worlds: seq<World>, i: nat, j: nat): (k: Option<nat>)
    requires i <= j < |worlds|
    ensures k.Some? ==> i <= k.value < j
    decreases j - i
  {
    if i == j then None
    else if worlds[j - 1].engine.mode != worlds[j].engine.mode then Some(j - 1)
    else LastSwitch(worlds, i, j - 1)
  }

  predicate RightMode(w: World) { w.Drained().night == w.engine.mode.Night? }

  /** What decides it: the last change of mode, or how it was at first. */
  predicate ModeTaken(worlds: seq<World>, i: nat, j: nat)
    requires i <= j < |worlds|
  {
    match LastSwitch(worlds, i, j)
    case None => RightMode(worlds[i])
    case Some(k) =>
      var night := worlds[k + 1].engine.mode.Night?;
      worlds[k].driver.Reissues(night, false) || worlds[k].Drained().night == night
  }

  predicate Taken(worlds: seq<World>, k: nat)
    requires k + 1 < |worlds|
  {
    worlds[k].Drained().On() ==> worlds[k + 1].Drained().On() && TakesMode(worlds[k], worlds[k + 1])
  }

  lemma {:induction false} SwitchStep(worlds: seq<World>, i: nat, j: nat)
    requires i <= j < |worlds| - 1 && TakesMode(worlds[j], worlds[j + 1])
    requires RightMode(worlds[j]) <==> ModeTaken(worlds, i, j)
    ensures RightMode(worlds[j + 1]) <==> ModeTaken(worlds, i, j + 1)
  {
  }

  lemma {:induction false} SwitchHistory(worlds: seq<World>, i: nat, j: nat)
    requires i <= j < |worlds| && worlds[i].Drained().On() && forall k :: i <= k < j ==> Taken(worlds, k)
    ensures worlds[j].Drained().On() && (RightMode(worlds[j]) <==> ModeTaken(worlds, i, j))
    decreases j - i
  {
    if i < j {
      SwitchHistory(worlds, i, j - 1);
      assert Taken(worlds, j - 1);
      SwitchStep(worlds, i, j - 1);
    }
  }

  lemma {:induction false} GuardStep(worlds: seq<World>, steps: seq<Step>, k: nat)
    requires Run(worlds, steps) && k < |steps| && Guards(worlds[k], steps[k])
    ensures Taken(worlds, k)
  {
    InvRun(worlds, steps, k);
    if worlds[k].Drained().On() { GuardTakesMode(worlds[k], steps[k]); }
  }

  /** The mode a siren that is on guards in: the alarm's, exactly when the last
      change of mode found it so already, or found it last seen armed in
      another, or in an exit delay, and so disarmed it first; and if there was
      none, when it was the alarm's at first. */
  lemma {:induction false} SirenModeExactly(worlds: seq<World>, steps: seq<Step>, i: nat, j: nat)
    requires Run(worlds, steps) && i <= j < |worlds| && worlds[i].Drained().On()
    requires forall k :: i <= k < j ==> Guards(worlds[k], steps[k])
    ensures worlds[j].Drained().On()
    ensures RightMode(worlds[j]) <==> ModeTaken(worlds, i, j)
  {
    forall k | i <= k < j ensures Taken(worlds, k) { GuardStep(worlds, steps, k); }
    SwitchHistory(worlds, i, j);
  }

  /** And how it comes to guard: of an alarm disarmed, a command that arms it
      leaves the drained siren on in its mode exactly when the driver disarms it
      first, or it is off and was last seen off or testing. */
  lemma {:induction false} ArmingTakesExactly(w: World, cmd: Cmd, local: bool, pick: Option<int>)
    requires Inv(w) && w.present && w.engine.state.Disarmed? && cmd.ArmCmd?
    requires ValidCmdPick(w.engine, w.cfg, cmd, pick)
    ensures var v := Next(w, Commands(cmd, local, pick));
      && !v.engine.state.Disarmed? && v.engine.mode.Night? == cmd.night
      && (v.Drained().On() && RightMode(v) <==>
            w.driver.Reissues(cmd.night, local)
            || (w.Drained().state.Off? && w.driver.last in {Some(S.Off), Some(S.Test)}))
  {
    var r := w.engine.Command(w.cfg, cmd, local, pick, w.Env());
    CommandOk(w.engine, w.cfg, cmd, local, pick, w.Env());
    S.SettledDrainsOff(w.siren, w.queue);
    var armed := ArmThenAlerts(w, r);
    D.ArmTakesExactly(w.driver, cmd.night, r.calls[0].delayed, w.siren, w.queue);
  }

  /** Nothing but a disarm command lowers the alarm or changes its mode once it
      is under way: not a sensor, a report, a timer or another command; and a
      restart does exactly when what was last written is lower, or in another
      mode. */
  lemma {:induction false} OnlyADisarmLowers(w: World, st: Step)
    requires Inv(w) && Enabled(w, st)
    requires !(st.Commands? && st.cmd.DisarmCmd?)
    ensures var f := Next(w, st).engine;
      if st.Restarts? then (Rank(w.engine.state) <= Rank(f.state) && f.mode == w.engine.mode) <==> w.Survives()
      else Forwards(w.engine, f)
  {
    var e, cfg, env := w.engine, w.cfg, w.Env();
    match st {
      case Restarts(_, _) => RestartOk(e.disk, cfg, env);
      case Commands(cmd, local, pick) => CommandOk(e, cfg, cmd, local, pick, env);
      case Senses(id, keypad, inAlarm) => SensorEventOk(e, cfg, id, keypad, inAlarm, env);
      case ReportsToEngine(s, pick) => SirenReportOk(e, cfg, s, pick, env);
      case Fires(i, pick) => FireOk(e, cfg, i, pick, env);
      case _ =>
    }
  }

  lemma {:induction false} SteerSurvives(w: World, r: Effect)
    requires EngineOk(w.engine, w.cfg, w.now) && EngineOk(r.engine, w.cfg, w.now)
    requires w.saved == SavedOf(w.engine) && r.engine.state != w.engine.state
    requires r.engine.state.Disarmed? || Forwards(w.engine, r.engine)
    ensures w.Steer(r).Survives() <==>
      (w.writable && !w.engine.closed) || (w.engine.state.Arming? && r.engine.InArmed())
  {
  }

  predicate SurvivesExactly(w: World, v: World) {
    v.Survives() <==> (w.writable && !w.engine.closed) || (w.engine.state.Arming? && v.engine.InArmed())
  }

  lemma {:induction false} CommandSurvives(w: World, cmd: Cmd, local: bool, pick: Option<int>)
    requires Inv(w) && ValidCmdPick(w.engine, w.cfg, cmd, pick) && w.saved == SavedOf(w.engine)
    ensures var r := w.engine.Command(w.cfg, cmd, local, pick, w.Env());
      r.engine.state != w.engine.state ==> SurvivesExactly(w, w.Steer(r))
  {
    CommandOk(w.engine, w.cfg, cmd, local, pick, w.Env());
    var r := w.engine.Command(w.cfg, cmd, local, pick, w.Env());
    if r.engine.state != w.engine.state { SteerSurvives(w, r); }
  }

  lemma {:induction false} EventSurvives(w: World, id: int, keypad: bool, inAlarm: bool)
    requires Inv(w) && w.saved == SavedOf(w.engine)
    ensures var r := w.engine.SensorEvent(w.cfg, id, keypad, inAlarm, w.Env());
      r.engine.state != w.engine.state ==> SurvivesExactly(w, w.Steer(r))
  {
    SensorEventOk(w.engine, w.cfg, id, keypad, inAlarm, w.Env());
    var r := w.engine.SensorEvent(w.cfg, id, keypad, inAlarm, w.Env());
    if r.engine.state != w.engine.state { SteerSurvives(w, r); }
  }

  lemma {:induction false} ReportSurvives(w: World, s: S.SirenState, pick: Option<int>)
    requires Inv(w) && Picks(w.engine.InAlarm(w.cfg, w.engine.mode), pick) && w.saved == SavedOf(w.engine)
    ensures var r := w.engine.SirenReport(w.cfg, s, pick, w.Env());
      r.engine.state != w.engine.state ==> SurvivesExactly(w, w.Steer(r))
  {
    SirenReportOk(w.engine, w.cfg, s, pick, w.Env());
    var r := w.engine.SirenReport(w.cfg, s, pick, w.Env());
    if r.engine.state != w.engine.state { SteerSurvives(w, r); }
  }

  lemma {:induction false} TimerSurvives(w: World, i: nat, pick: Option<int>)
    requires Inv(w) && i < |w.engine.timers| && Picks(w.engine.InAlarm(w.cfg, w.engine.mode), pick)
    requires w.saved == SavedOf(w.engine)
    ensures var r := w.engine.Fire(w.cfg, i, pick, w.Env());
      r.engine.state != w.engine.state ==> SurvivesExactly(w, w.Steer(r))
  {
    FireOk(w.engine, w.cfg, i, pick, w.Env());
    var r := w.engine.Fire(w.cfg, i, pick, w.Env());
    if r.engine.state != w.engine.state { SteerSurvives(w, r); }
  }

  /** Which changes of state a crash may undo: after one of an alarm whose
      last was written, a restart finds it no lower and in its mode exactly
      when this one could be written too, or ended an exit delay, which the
      file already says. */
  lemma {:induction false} CrashKeepsExactly(w: World, st: Step)
    requires Inv(w) && Enabled(w, st) && w.saved == SavedOf(w.engine)
    requires st.Commands? || st.Senses? || st.ReportsToEngine? || st.Fires?
    requires Next(w, st).engine.state != w.engine.state
    ensures Next(w, st).Survives() <==>
      (w.writable && !w.engine.closed) || (w.engine.state.Arming? && Next(w, st).engine.InArmed())
  {
    match st {
      case Commands(cmd, local, pick) => CommandSurvives(w, cmd, local, pick);
      case Senses(id, keypad, inAlarm) => EventSurvives(w, id, keypad, inAlarm);
      case ReportsToEngine(s, pick) => ReportSurvives(w, s, pick);
      case Fires(i, pick) => TimerSurvives(w, i, pick);
    }
    assert SurvivesExactly(w, Next(w, st));
  }

  /** Whether the n-th world of a run is one a restart goes back to: a restart
      itself, or a change of state that could be written. */
  predicate Writes(worlds: seq<World>, steps: seq<Step>, n: nat)
    requires n <= |steps| < |worlds|
  {
    n == 0 || steps[n - 1].Restarts?
    || (worlds[n].engine.state != worlds[n - 1].engine.state && worlds[n - 1].writable && !worlds[n - 1].engine.closed)
  }

  lemma {:induction false} SavedStep(w: World, st: Step)
    requires Enabled(w, st)
    ensures var v := Next(w, st);
      v.saved == if st.Restarts? || (v.engine.state != w.engine.state && w.writable && !w.engine.closed)
                 then SavedOf(v.engine) else w.saved
  {
  }

  predicate SavedAt(worlds: seq<World>, steps: seq<Step>, n: nat)
    requires n <= |steps| < |worlds|
  {
    if Writes(worlds, steps, n) then worlds[n].saved == SavedOf(worlds[n].engine)
    else n > 0 && worlds[n].saved == worlds[n - 1].saved
  }

  lemma {:induction false} RunSavedAt(worlds: seq<World>, steps: seq<Step>, n: nat)
    requires Run(worlds, steps) && n < |worlds|
    ensures SavedAt(worlds, steps, n)
  {
    if n > 0 { SavedStep(worlds[n - 1], steps[n - 1]); }
  }

  lemma {:induction false} LastWrite(worlds: seq<World>, steps: seq<Step>, i: nat) returns (k: nat)
    requires i <= |steps| < |worlds| && forall n :: 0 <= n <= i ==> SavedAt(worlds, steps, n)
    ensures k <= i && Writes(worlds, steps, k) && worlds[i].saved == SavedOf(worlds[k].engine)
    ensures forall m :: k < m <= i ==> !Writes(worlds, steps, m)
  {
    assert SavedAt(worlds, steps, i);
    if Writes(worlds, steps, i) { k := i; } else { k := LastWrite(worlds, steps, i - 1); }
  }

  /** At any point of a run, a restart goes back to the state and the mode of
      the last write, an exit delay being over. */
  lemma {:induction false} CrashGoesBackToTheLastWrite(worlds: seq<World>, steps: seq<Step>, i: nat,
                                                       heard: Option<S.SirenState>, left: seq<S.Command>)
    returns (k: nat)
    requires Run(worlds, steps) && i < |worlds|
    ensures k <= i && Writes(worlds, steps, k) && forall m :: k < m <= i ==> !Writes(worlds, steps, m)
    ensures var f := worlds[i].Reboot(heard, left).engine;
      f.state == Lasting(worlds[k].engine) && f.mode == worlds[k].engine.mode
  {
    forall n | 0 <= n <= i ensures SavedAt(worlds, steps, n) { RunSavedAt(worlds, steps, n); }
    k := LastWrite(worlds, steps, i);
    InvRun(worlds, steps, i);
    RestartOk(worlds[i].engine.disk, worlds[i].cfg, worlds[i].Env());
  }

  lemma {:induction false} TriggeredStays(w: World, st: Step)
    requires Inv(w) && Enabled(w, st) && w.engine.state.Triggered? && !(st.Commands? && st.cmd.DisarmCmd?)
    ensures var v := Next(w, st);
      && v.engine.state == (if st.Restarts? then w.saved.state else Triggered)
      && v.saved.state == w.saved.state
  {
    OnlyADisarmLowers(w, st);
    if st.Restarts? { RestartOk(w.engine.disk, w.cfg, w.Env()); }
  }

  lemma {:induction false} TriggeredUntil(worlds: seq<World>, steps: seq<Step>, i: nat, j: nat)
    requires Run(worlds, steps) && i <= j < |worlds| && worlds[i].engine.state.Triggered?
    requires forall k :: i <= k < j ==> !(steps[k].Commands? && steps[k].cmd.DisarmCmd?)
    requires worlds[i].saved.state.Triggered? || forall k :: i <= k < j ==> !steps[k].Restarts?
    ensures worlds[j].engine.state.Triggered? && worlds[j].saved.state == worlds[i].saved.state
    decreases j - i
  {
    if i < j {
      TriggeredUntil(worlds, steps, i, j - 1);
      InvRun(worlds, steps, j - 1);
      TriggeredStays(worlds[j - 1], steps[j - 1]);
    }
  }

  /** A set-off alarm stays set off over a run without a disarm exactly when
      its file says so, or nothing restarts. */
  lemma {:induction false} TriggeredUntilDisarmed(worlds: seq<World>, steps: seq<Step>, i: nat, j: nat)
    requires Run(worlds, steps) && i <= j < |worlds| && worlds[i].engine.state.Triggered?
    requires forall k :: i <= k < j ==> !(steps[k].Commands? && steps[k].cmd.DisarmCmd?)
    ensures (forall k :: i <= k <= j ==> worlds[k].engine.state.Triggered?) <==>
      (worlds[i].saved.state.Triggered? || forall k :: i <= k < j ==> !steps[k].Restarts?)
  {
    if worlds[i].saved.state.Triggered? || forall k :: i <= k < j ==> !steps[k].Restarts? {
      forall k | i <= k <= j ensures worlds[k].engine.state.Triggered? { TriggeredUntil(worlds, steps, i, k); }
    } else {
      var k := FirstRestart(steps, i, j);
      TriggeredUntil(worlds, steps, i, k);
      InvRun(worlds, steps, k);
      TriggeredStays(worlds[k], steps[k]);
      assert !worlds[k + 1].engine.state.Triggered?;
    }
  }

  lemma {:induction false} FirstRestart(steps: seq<Step>, i: nat, j: nat) returns (k: nat)
    requires i <= j <= |steps| && exists k :: i <= k < j && steps[k].Restarts?
    ensures i <= k < j && steps[k].Restarts? && forall m :: i <= m < k ==> !steps[m].Restarts?
    decreases j - i
  {
    if steps[i].Restarts? { k := i; } else { k := FirstRestart(steps, i + 1, j); }
  }

  /** Such a file: an alarm set off while it cannot be written is forgotten by
      a restart. */
  lemma {:induction false} UnwrittenAlarmIsForgotten(cfg: SensorConfig)
    requires 7 !in cfg.nightAllowed && 7 in cfg.instant
    ensures exists w: World, st: Step ::
      && Inv(w) && w.engine.state.Triggered? && st.Restarts? && Enabled(w, st)
      && Next(w, st).engine.state.Disarmed?
  {
    var w := SetOffUnwritten(cfg);
    assert Next(w, Restarts(None, [])).engine.state.Disarmed?;
  }

  lemma {:induction false} SetOffUnwritten(cfg: SensorConfig) returns (w: World)
    requires 7 !in cfg.nightAllowed && 7 in cfg.instant
    ensures Inv(w) && w.engine.state.Triggered? && w.engine.disk == Missing
  {
    var none := World(New(Missing), D.NEW, S.Siren(S.Off, false), [], false, false, 0, cfg,
                      Saved(Disarmed, NoMode), []);
    RebootOk(none, None, []);
    var v := ArmUnwritten(none.Reboot(None, []));
    InvStep(v, Senses(7, false, true));
    w := Next(v, Senses(7, false, true));
  }

  lemma {:induction false} ArmUnwritten(w: World) returns (v: World)
    requires Inv(w) && !w.writable && w.engine.state.Disarmed? && w.engine.lastAlarm == map[]
    ensures Inv(v) && !v.writable && v.engine.state.ArmedAway? && v.engine.disk == w.engine.disk && v.cfg == w.cfg
  {
    assert w.engine.InAlarm(w.cfg, Away) == {};
    InvStep(w, Commands(ArmCmd(false), false, None));
    v := Next(w, Commands(ArmCmd(false), false, None));
  }

  /** A delay always ends. While arming or pending one live timer counts, no
      older one does anything, and running it moves the alarm on; the clock
      cannot pass it: the deadline is never overrun by more than the margin. */
  lemma {:induction false} DelaysEnd(worlds: seq<World>, steps: seq<Step>, i: nat)
    requires Run(worlds, steps) && i < |worlds| && !worlds[i].engine.closed
    ensures var e := worlds[i].engine;
      var live := Live(e.timers, e.timerGen);
      && (e.state in {Arming, Pending} <==> live != []) && |live| <= 1
      && (live != [] ==> e.deadline.Some? && worlds[i].now <= live[0].due <= e.deadline.value + SIREN_MARGIN)
      && (forall k, pick :: 0 <= k < |e.timers| && Enabled(worlds[i], Fires(k, pick)) ==>
           var f := Next(worlds[i], Fires(k, pick)).engine;
           if e.timers[k] in live then Rank(e.state) < Rank(f.state) else f == e.(timers := f.timers))
  {
    InvRun(worlds, steps, i);
    var w := worlds[i];
    var e := w.engine;
    forall k: nat, pick | k < |e.timers| && Enabled(w, Fires(k, pick))
      ensures var f := Next(w, Fires(k, pick)).engine;
        if e.timers[k] in Live(e.timers, e.timerGen) then Rank(e.state) < Rank(f.state) else f == e.(timers := f.timers)
    {
      FireOk(e, w.cfg, k, pick, w.Env());
      LiveDrop(e.timers, k, e.timerGen);
      LiveIsCurrent(e.timers, e.timerGen, e.timers[k]);
    }
  }

  lemma {:induction false} LiveIsCurrent(timers: seq<Timer>, gen: nat, t: Timer)
    ensures t in Live(timers, gen) ==> t.gen == gen
    decreases |timers|
  {
    if timers != [] { LiveIsCurrent(timers[..|timers| - 1], gen, t); }
  }

  /** The last report of each sensor since the last restart or disarm of an
      alarm that was on; worlds[0] is a restart. */
  function Reports(worlds: seq<World>, steps: seq<Step>, n: nat): map<int, bool>
    requires n <= |steps| < |worlds|
  {
    if n == 0 then map[]
    else match steps[n - 1]
      case Restarts(_, _) => map[]
      case Commands(cmd, _, _) =>
        if cmd.DisarmCmd? && !worlds[n - 1].engine.state.Disarmed? then map[] else Reports(worlds, steps, n - 1)
      case Senses(id, keypad, inAlarm) =>
        if keypad then Reports(worlds, steps, n - 1) else Reports(worlds, steps, n - 1)[id := inAlarm]
      case _ => Reports(worlds, steps, n - 1)
  }

  lemma {:induction false} CommandReports(e: Engine, cfg: SensorConfig, cmd: Cmd, local: bool, pick: Option<int>,
                                          env: Env)
    ensures e.Command(cfg, cmd, local, pick, env).engine.lastAlarm ==
      if cmd.DisarmCmd? && !e.state.Disarmed? then map[] else e.lastAlarm
  {
    if !cmd.DisarmCmd? { CommandKeepsReports(e, cfg, cmd, local, pick, env); }
  }

  lemma {:induction false} RestartReports(disk: Disk, env: Env)
    ensures Restart(disk, env).engine.lastAlarm == map[]
  {
  }

  lemma {:induction false} StepKeepsReports(w: World, st: Step)
    requires Enabled(w, st)
    ensures Next(w, st).engine.lastAlarm == match st
      case Restarts(_, _) => map[]
      case Commands(cmd, _, _) =>
        if cmd.DisarmCmd? && !w.engine.state.Disarmed? then map[] else w.engine.lastAlarm
      case Senses(id, keypad, inAlarm) =>
        if keypad then w.engine.lastAlarm else w.engine.lastAlarm[id := inAlarm]
      case _ => w.engine.lastAlarm
  {
    var e, cfg, env := w.engine, w.cfg, w.Env();
    match st {
      case Restarts(_, _) => RestartReports(e.disk, env);
      case Commands(cmd, local, pick) => CommandReports(e, cfg, cmd, local, pick, env);
      case Senses(i, keypad, inAlarm) => SensorEventKeepsReports(e, cfg, i, keypad, inAlarm, env);
      case ReportsToEngine(s, pick) => ReportKeepsReports(e, cfg, s, pick, env);
      case Fires(i, pick) => FireKeepsReports(e, cfg, i, pick, env);
      case _ =>
    }
  }

  /** What the engine has in mind is the reports received. */
  lemma {:induction false} ReportsAreKept(worlds: seq<World>, steps: seq<Step>, n: nat)
    requires Run(worlds, steps) && n < |worlds|
    ensures worlds[n].engine.lastAlarm == Reports(worlds, steps, n)
  {
    if n > 0 {
      ReportsAreKept(worlds, steps, n - 1);
      StepKeepsReports(worlds[n - 1], steps[n - 1]);
    } else {
      var w: World, heard, left :| worlds[0] == w.Reboot(heard, left);
      RestartReports(w.engine.disk, w.Env());
    }
  }

  /** An alarm seen is never forgotten: in an armed state no watched sensor's
      last report, since the last disarm or restart, is in alarm. */
  lemma {:induction false} NoAlarmForgotten(worlds: seq<World>, steps: seq<Step>, i: nat, id: int)
    requires Run(worlds, steps) && i < |worlds| && worlds[i].engine.InArmed()
    requires id in Reports(worlds, steps, i) && Reports(worlds, steps, i)[id]
    ensures worlds[i].engine.state.ArmedNight? && id in worlds[i].cfg.nightAllowed
  {
    InvRun(worlds, steps, i);
    ReportsAreKept(worlds, steps, i);
    var e := worlds[i].engine;
    assert e.InAlarm(worlds[i].cfg, e.mode) == {};
    assert id !in e.InAlarm(worlds[i].cfg, e.mode);
  }

  /** Over every run the retry flag holds exactly while one retry is due, within
      REARM_EVERY, and re-armings are at least REARM_EVERY apart. */
  lemma {:induction false} RearmsAreSpaced(worlds: seq<World>, steps: seq<Step>, i: nat)
    requires Run(worlds, steps) && i < |worlds|
    ensures var w := worlds[i];
      && (w.driver.retrying <==> |w.driver.timers| == 1) && |w.driver.timers| <= 1
      && (forall t :: t in w.driver.timers ==> w.now <= t <= w.now + D.REARM_EVERY)
      && (forall a, b :: 0 <= a < b < |w.rearms| ==> w.rearms[a] + D.REARM_EVERY <= w.rearms[b])
  {
    InvRun(worlds, steps, i);
    SpacedApart(worlds[i].rearms, worlds[i].driver.lastRearm);
  }

  lemma {:induction false} SpacedApart(rearms: seq<int>, last: Option<int>)
    requires Spaced(rearms, last)
    ensures forall a, b :: 0 <= a < b < |rearms| ==> rearms[a] + D.REARM_EVERY <= rearms[b]
  {
    forall a, b | 0 <= a < b < |rearms| ensures rearms[a] + D.REARM_EVERY <= rearms[b] {
      Apart(rearms, last, a, b);
    }
  }

  lemma {:induction false} Apart(rearms: seq<int>, last: Option<int>, a: nat, b: nat)
    requires Spaced(rearms, last) && a < b < |rearms|
    ensures rearms[a] + D.REARM_EVERY <= rearms[b]
    decreases b
  {
    if a < b - 1 { Apart(rearms, last, a, b - 1); }
  }

  /** Every off report while the alarm is on arms the siren for the alarm's
      mode, which it takes if it is off and ignores if it is on, or leaves it
      to be asked for its state within REARM_EVERY. */
  lemma {:induction false} OffSirenComesBack(worlds: seq<World>, steps: seq<Step>, i: nat)
    requires Run(worlds, steps) && i < |worlds|
    requires !worlds[i].engine.state.Disarmed? && worlds[i].present
    ensures var w := worlds[i];
      var v := Next(w, ReportsToDriver(S.Off));
      if v.queue != w.queue then
        && |v.queue| == |w.queue| + 1 && v.queue[|w.queue|].DoArm?
        && v.queue[|w.queue|].night == w.engine.mode.Night?
        && (w.Drained().state.Off? ==> v.Drained().On() && v.Drained().night == w.engine.mode.Night?)
        && (!w.Drained().state.Off? ==> v.Drained() == w.Drained())
      else
        && |v.driver.timers| == 1 && v.driver.timers[0] <= w.now + D.REARM_EVERY
        && Next(v, Retries(0)).queue == v.queue + [S.AskState]
  {
    InvRun(worlds, steps, i);
    OffComesBack(worlds[i]);
  }

  lemma {:induction false} OffComesBack(w: World)
    requires Inv(w) && !w.engine.state.Disarmed? && w.present
    ensures var v := Next(w, ReportsToDriver(S.Off));
      if v.queue != w.queue then
        && |v.queue| == |w.queue| + 1 && v.queue[|w.queue|].DoArm?
        && v.queue[|w.queue|].night == w.engine.mode.Night?
        && (w.Drained().state.Off? ==> v.Drained().On() && v.Drained().night == w.engine.mode.Night?)
        && (!w.Drained().state.Off? ==> v.Drained() == w.Drained())
      else
        && |v.driver.timers| == 1 && v.driver.timers[0] <= w.now + D.REARM_EVERY
        && Next(v, Retries(0)).queue == v.queue + [S.AskState]
  {
    if w.driver.retrying { assert w.driver.timers[0] in w.driver.timers; }
    D.OffReportRearms(w.driver, w.now, w.siren, w.queue);
    assert w.queue + [] == w.queue;
  }
}
