/** The alarm engine (internal/alarm/engine.go): the state machine on values,
    then the class that updates its fields in place. */

module AlarmModel {
  import opened Wrappers
  import S = Siren
  import D = DriverModel

  const SECOND := D.SECOND
  const SIREN_MARGIN := 5 * SECOND
  const DEFAULT_DELAY := 60 * SECOND

  datatype State = Disarmed | Arming | ArmedNight | ArmedAway | Pending | Triggered

  /** armed_away or armed_night while not disarmed. */
  datatype Mode = NoMode | Away | Night

  function StateOf(m: Mode): State
    requires !m.NoMode?
  {
    if m.Night? then ArmedNight else ArmedAway
  }

  /** disarmed < arming < armed < pending < triggered. */
  function Rank(s: State): nat {
    match s
    case Disarmed => 0
    case Arming => 1
    case ArmedNight => 2
    case ArmedAway => 2
    case Pending => 3
    case Triggered => 4
  }

  /** The state file. A state the engine does not know is None, as is a mode
      left empty; previous is the mode's old name. A mode neither empty nor
      known, which makes the alarm away whatever previous says, is any Some
      other than night. */
  datatype Persisted = Persisted(state: Option<State>, mode: Option<State>, previous: Option<State>,
                                 armedAt: int, trigBy: int)

  datatype Disk = Missing | Unreadable | Corrupt | File(p: Persisted)

  datatype SensorConfig = SensorConfig(nightAllowed: set<int>, instant: set<int>)

  /** What a step finds around it: the time, whether a siren keeps the alarm,
      whether the state file can be written. */
  datatype Env = Env(now: int, present: bool, writable: bool)

  /** The siren as the engine commands it. */
  datatype Call = CallArm(night: bool, delayed: bool) | CallDisarm | CallEntryDelay | CallAlert

  datatype TimerKind = ExitOver | EntryOver
  datatype Timer = Timer(gen: nat, due: int, kind: TimerKind)

  datatype Cmd = DisarmCmd | ArmCmd(night: bool) | UnknownCmd

  datatype Effect = Effect(engine: Engine, calls: seq<Call>)

  datatype Engine = Engine(state: State, mode: Mode, armedAt: int, trigBy: int, deadline: Option<int>,
                           timerGen: nat, closed: bool, armingDelay: int, pendingDelay: int,
                           lastAlarm: map<int, bool>, disk: Disk, timers: seq<Timer>)
  {
    predicate InArmed() { state.ArmedNight? || state.ArmedAway? }

    predicate Watched(cfg: SensorConfig, id: int) {
      !mode.Night? || id !in cfg.nightAllowed
    }

    /** The watched sensors whose last report is in alarm. */
    function InAlarm(cfg: SensorConfig, m: Mode): set<int> {
      set id | id in lastAlarm && lastAlarm[id] && (!m.Night? || id !in cfg.nightAllowed)
    }

    function Margin(env: Env): int { if env.present then SIREN_MARGIN else 0 }

    function Persist(): Persisted {
      Persisted(Some(state), if mode.NoMode? then None else Some(StateOf(mode)), None, armedAt, trigBy)
    }

    function Save(env: Env): Engine {
      if closed || !env.writable then this else this.(disk := File(Persist()))
    }

    function Transition(s: State, env: Env): Engine {
      var e := this.(state := s, deadline := None, timerGen := timerGen + 1);
      var f := match s
        case Disarmed => e.(armedAt := 0, trigBy := 0, mode := NoMode, lastAlarm := map[])
        case Arming => e.(deadline := Some(env.now + armingDelay))
        case Pending => e.(deadline := Some(env.now + pendingDelay))
        case _ => e;
      f.Save(env)
    }

    function After(wait: int, kind: TimerKind, env: Env): Engine {
      this.(timers := timers + [Timer(timerGen, env.now + wait, kind)])
    }

    function EntryTimer(env: Env): Engine
      requires deadline.Some?
    {
      After(deadline.value - env.now + Margin(env), EntryOver, env)
    }

    function Trigger(env: Env): Effect {
      Effect(Transition(Triggered, env), [CallAlert])
    }

    function SensorAlarm(cfg: SensorConfig, id: int, env: Env): Effect {
      match state
      case ArmedAway => FirstAlarm(cfg, id, env)
      case ArmedNight => FirstAlarm(cfg, id, env)
      case Pending => if id in cfg.instant then Trigger(env) else Effect(this, [])
      case Triggered => Effect(this, [CallAlert])
      case _ => Effect(this, [])
    }

    function FirstAlarm(cfg: SensorConfig, id: int, env: Env): Effect {
      var e := this.(trigBy := id);
      if id in cfg.instant then e.Trigger(env)
      else Effect(e.Transition(Pending, env).EntryTimer(env), [CallEntryDelay])
    }

    /** pick is the sensor the range over lastAlarm comes upon first. */
    function StillInAlarm(cfg: SensorConfig, pick: Option<int>, env: Env): Effect {
      if pick.None? then Effect(this, []) else SensorAlarm(cfg, pick.value, env)
    }

    function EnterArmed(cfg: SensorConfig, pick: Option<int>, env: Env): Effect
      requires !mode.NoMode?
    {
      this.(armedAt := env.now).Transition(StateOf(mode), env).StillInAlarm(cfg, pick, env)
    }

    function Command(cfg: SensorConfig, cmd: Cmd, local: bool, pick: Option<int>, env: Env): Effect {
      match cmd
      case DisarmCmd =>
        if state.Disarmed? then Effect(this, []) else Effect(Transition(Disarmed, env), [CallDisarm])
      case ArmCmd(night) =>
        var m := if night then Night else Away;
        (match state
         case Disarmed => if local then StartArming(m, env) else ArmAtOnce(cfg, m, pick, env)
         case ArmedAway => SwitchMode(cfg, m, pick, env)
         case ArmedNight => SwitchMode(cfg, m, pick, env)
         case _ => Effect(this, []))
      case UnknownCmd => Effect(this, [])
    }

    function StartArming(m: Mode, env: Env): Effect {
      var e := this.(mode := m, trigBy := 0).Transition(Arming, env);
      Effect(e.After(armingDelay + Margin(env), ExitOver, env), [CallArm(m.Night?, true)])
    }

    function ArmAtOnce(cfg: SensorConfig, m: Mode, pick: Option<int>, env: Env): Effect
      requires !m.NoMode?
    {
      var r := this.(mode := m, trigBy := 0).EnterArmed(cfg, pick, env);
      Effect(r.engine, [CallArm(m.Night?, false)] + r.calls)
    }

    function SwitchMode(cfg: SensorConfig, m: Mode, pick: Option<int>, env: Env): Effect
      requires !m.NoMode?
    {
      if state == StateOf(m) then Effect(this, [])
      else
        var r := this.(mode := m).Transition(StateOf(m), env).StillInAlarm(cfg, pick, env);
        Effect(r.engine, [CallArm(m.Night?, false)] + r.calls)
    }

    function SensorEvent(cfg: SensorConfig, id: int, keypad: bool, inAlarm: bool, env: Env): Effect {
      if keypad then Effect(this, [])
      else
        var e := this.(lastAlarm := lastAlarm[id := inAlarm]);
        if !inAlarm || !e.Watched(cfg, id) then Effect(e, []) else e.SensorAlarm(cfg, id, env)
    }

    function SirenReport(cfg: SensorConfig, s: S.SirenState, pick: Option<int>, env: Env): Effect {
      if s.Armed? && state.Arming? && !mode.NoMode? then EnterArmed(cfg, pick, env)
      else if s.EntryDelay? && (state.ArmedAway? || state.ArmedNight?) then
        Effect(Transition(Pending, env).EntryTimer(env), [])
      else if (s.Alert? || s.AlertOver?) && !state.Disarmed? && !state.Triggered? then
        Effect(Transition(Triggered, env), [])
      else Effect(this, [])
    }

    /** The i-th timer scheduled runs: nothing unless it is of the current
        generation. */
    function Fire(cfg: SensorConfig, i: nat, pick: Option<int>, env: Env): Effect
      requires i < |timers|
    {
      var t := timers[i];
      var e := this.(timers := timers[..i] + timers[i + 1..]);
      if t.gen != timerGen then Effect(e, [])
      else match t.kind
        case ExitOver => if state.Arming? && !mode.NoMode? then e.EnterArmed(cfg, pick, env) else Effect(e, [])
        case EntryOver => if state.Pending? then e.Trigger(env) else Effect(e, [])
    }

    function Close(): Engine { this.(timerGen := timerGen + 1, closed := true) }

    function SetTimings(arming: int, pending: int): Engine {
      this.(armingDelay := if arming > 0 then arming else armingDelay,
            pendingDelay := if pending > 0 then pending else pendingDelay)
    }

    function Load(env: Env): Effect {
      if !disk.File? then Effect(this, [CallDisarm])
      else
        var e := Restored(disk.p);
        if e.state.Disarmed? then Effect(e, [CallDisarm])
        else if e.state.Pending? then
          Effect(e.(deadline := Some(env.now + pendingDelay)).EntryTimer(env), [CallArm(e.mode.Night?, false)])
        else Effect(e, [CallArm(e.mode.Night?, false)])
    }

    /** An exit delay cut by the restart ends armed. */
    function Restored(p: Persisted): Engine {
      var m := FileMode(p);
      match p.state
      case None => this.(state := Disarmed)
      case Some(Disarmed) => this.(state := Disarmed)
      case Some(Pending) => this.(state := Pending, mode := m, armedAt := p.armedAt, trigBy := p.trigBy)
      case Some(Triggered) => this.(state := Triggered, mode := m, armedAt := p.armedAt, trigBy := p.trigBy)
      case _ => this.(state := StateOf(m), mode := m, armedAt := p.armedAt)
    }
  }

  function FileMode(p: Persisted): Mode {
    var m := if p.mode.None? then p.previous else p.mode;
    if m == Some(ArmedNight) then Night else Away
  }

  function New(disk: Disk): Engine {
    Engine(Disarmed, NoMode, 0, 0, None, 0, false, DEFAULT_DELAY, DEFAULT_DELAY, map[], disk, [])
  }

  /** The driver after the engine's calls, in order, and what it sends. */
  function Forward(d: D.Driver, present: bool, calls: seq<Call>): D.Effect
    decreases |calls|
  {
    if calls == [] then D.Effect(d, [])
    else
      var r := Forward(d, present, calls[..|calls| - 1]);
      var s := One(r.driver, present, calls[|calls| - 1]);
      D.Effect(s.driver, r.commands + s.commands)
  }

  function One(d: D.Driver, present: bool, call: Call): D.Effect {
    match call
    case CallArm(night, delayed) => d.Arm(present, night, delayed)
    case CallDisarm => d.Disarm()
    case CallEntryDelay => d.StartEntryDelay(present)
    case CallAlert => d.SetOff(present)
  }

  lemma {:induction false} ForwardOne(d: D.Driver, present: bool, call: Call)
    ensures Forward(d, present, [call]) == One(d, present, call)
  {
    assert [call][..0] == [];
  }

  function Then(r: D.Effect, s: D.Effect): D.Effect { D.Effect(s.driver, r.commands + s.commands) }

  lemma {:induction false} ForwardLast(d: D.Driver, present: bool, calls: seq<Call>, call: Call)
    ensures Forward(d, present, calls + [call]) ==
      var r := Forward(d, present, calls); Then(r, One(r.driver, present, call))
  {
    assert (calls + [call])[..|calls|] == calls;
  }

  lemma {:induction false} ThenThen(r: D.Effect, s: D.Effect, t: D.Effect)
    ensures Then(r, Then(s, t)) == Then(Then(r, s), t)
  {
  }

  lemma {:induction false} ForwardTwo(d: D.Driver, present: bool, a: Call, b: seq<Call>)
    ensures Forward(d, present, [a] + b) == Then(One(d, present, a), Forward(One(d, present, a).driver, present, b))
    decreases |b|
  {
    var r := One(d, present, a);
    if b == [] {
      assert [a] + b == [a];
      ForwardOne(d, present, a);
    } else {
      var b', c := b[..|b| - 1], b[|b| - 1];
      FrontAndLast(a, b);
      ForwardTwo(d, present, a, b');
      ForwardLast(d, present, [a] + b', c);
      ForwardLast(r.driver, present, b', c);
      var s := Forward(r.driver, present, b');
      ThenThen(r, s, One(s.driver, present, c));
    }
  }

  lemma {:induction false} FrontAndLast(a: Call, b: seq<Call>)
    requires b != []
    ensures b == b[..|b| - 1] + [b[|b| - 1]] && [a] + b == ([a] + b[..|b| - 1]) + [b[|b| - 1]]
  {
  }

  /** A restart: New then Load on the file left behind. */
  function Restart(disk: Disk, env: Env): Effect { New(disk).Load(env) }

  /** A delay as the siren takes it: whole units, rounded up, in a byte. */
  function SirenCount(delay: nat, unit: nat): nat
    requires unit > 0
  {
    var n := (delay + unit - 1) / unit;
    if n < 0xff then n else 0xff
  }

  /** The siren's count of a delay ends before the engine gives up on it; it
      lasts the delay out exactly when that is at most 255 s. */
  lemma {:induction false} SirenCountsFirst(delay: nat, e: Engine, env: Env)
    requires env.present && e.deadline == Some(env.now + delay)
    ensures var t := e.EntryTimer(env).timers[|e.timers|];
      env.now + SirenCount(delay, SECOND) * SECOND < t.due
    ensures SirenCount(delay, SECOND) * SECOND >= delay <==> delay <= 255 * SECOND
  {
    var n := (delay + SECOND - 1) / SECOND;
    assert n * SECOND <= delay + SECOND - 1 < n * SECOND + SECOND;
  }

  /** So does its count of the exit delay of a local arming. */
  lemma {:induction false} SirenCountsExitFirst(e: Engine, m: Mode, env: Env)
    requires env.present && e.armingDelay >= 0
    ensures var r := e.StartArming(m, env);
      var t := r.engine.timers[|e.timers|];
      && r.calls == [CallArm(m.Night?, true)] && t.kind.ExitOver? && t.gen == r.engine.timerGen
      && env.now + SirenCount(e.armingDelay, SECOND) * SECOND < t.due
  {
    var n := (e.armingDelay + SECOND - 1) / SECOND;
    assert n * SECOND <= e.armingDelay + SECOND - 1 < n * SECOND + SECOND;
  }

  /** pick is what a range over the map may come upon: a sensor in alarm if
      there is one, in any order. */
  predicate Picks<T(==)>(candidates: set<T>, pick: Option<T>) {
    if candidates == {} then pick.None? else pick.Some? && pick.value in candidates
  }
}

module AlarmClass {
  import opened Wrappers
  import S = Siren
  import D = DriverModel
  import opened AlarmModel
  import opened SirenDriverClass

  /** A call, then more calls, as the driver and the radio saw them. */
  lemma {:induction false} ForwardThen(d: D.Driver, present: bool, a: Call, b: seq<Call>, sent: seq<S.Command>)
    ensures var r := One(d, present, a);
      var t := Forward(r.driver, present, b);
      var all := Forward(d, present, [a] + b);
      all.driver == t.driver && (sent + r.commands) + t.commands == sent + all.commands
  {
    ForwardTwo(d, present, a, b);
    var r := One(d, present, a);
    var t := Forward(r.driver, present, b);
    assert (sent + r.commands) + t.commands == sent + (r.commands + t.commands);
  }

  class Engine {
    const siren: SirenDriver
    const cfg: SensorConfig
    var state: State
    var mode: Mode
    var armedAt: int
    var trigBy: int
    var deadline: Option<int>
    var timerGen: nat
    var closed: bool
    var armingDelay: int
    var pendingDelay: int
    var lastAlarm: map<int, bool>
    var disk: Disk
    var timers: seq<Timer>

    function View(): AlarmModel.Engine
      reads this
    {
      AlarmModel.Engine(state, mode, armedAt, trigBy, deadline, timerGen, closed,
                        armingDelay, pendingDelay, lastAlarm, disk, timers)
    }

    constructor (disk: Disk, siren: SirenDriver, cfg: SensorConfig)
      ensures this.siren == siren && this.cfg == cfg && View() == New(disk)
    {
      this.siren, this.cfg, this.disk := siren, cfg, disk;
      state, mode, armedAt, trigBy, deadline := Disarmed, NoMode, 0, 0, None;
      timerGen, closed, lastAlarm, timers := 0, false, map[], [];
      armingDelay, pendingDelay := DEFAULT_DELAY, DEFAULT_DELAY;
    }

    predicate Around(env: Env)
      reads siren.radio
    {
      env.present == siren.radio.present
    }

    /** The step changed the engine as the effect says, and its calls reached
        the driver in order. */
    twostate predicate Did(r: Effect)
      reads this, siren, siren.radio
    {
      View() == r.engine &&
      siren.Did(Forward(old(siren.View()), old(siren.radio.present), r.calls))
    }

    method Save(env: Env)
      modifies `disk
      ensures View() == old(View()).Save(env)
    {
      if closed { return; }
      if env.writable {
        disk := File(View().Persist());
      }
    }

    method Transition(s: State, env: Env)
      modifies this
      ensures View() == old(View()).Transition(s, env)
    {
      state, deadline := s, None;
      timerGen := timerGen + 1;
      match s {
        case Disarmed =>
          armedAt, trigBy, mode := 0, 0, NoMode;
          lastAlarm := map[];
        case Arming => deadline := Some(env.now + armingDelay);
        case Pending => deadline := Some(env.now + pendingDelay);
        case _ =>
      }
      Save(env);
    }

    method After(wait: int, kind: TimerKind, env: Env)
      modifies `timers
      ensures View() == old(View()).After(wait, kind, env)
    {
      timers := timers + [Timer(timerGen, env.now + wait, kind)];
    }

    method Trigger(env: Env)
      requires Around(env)
      modifies this, siren, siren.radio`sent
      ensures Did(old(View()).Trigger(env))
    {
      Transition(Triggered, env);
      siren.SetOff();
      ForwardOne(old(siren.View()), env.present, CallAlert);
    }

    method SensorAlarm(id: int, env: Env)
      requires Around(env)
      modifies this, siren, siren.radio`sent
      ensures Did(old(View()).SensorAlarm(cfg, id, env))
    {
      match state {
        case ArmedAway => FirstAlarm(id, env);
        case ArmedNight => FirstAlarm(id, env);
        case Pending =>
          if id in cfg.instant { Trigger(env); }
        case Triggered =>
          siren.SetOff();
          ForwardOne(old(siren.View()), env.present, CallAlert);
        case _ =>
      }
    }

    method FirstAlarm(id: int, env: Env)
      requires Around(env)
      modifies this, siren, siren.radio`sent
      ensures Did(old(View()).FirstAlarm(cfg, id, env))
    {
      trigBy := id;
      if id in cfg.instant {
        Trigger(env);
        return;
      }
      Transition(Pending, env);
      siren.StartEntryDelay();
      ForwardOne(old(siren.View()), env.present, CallEntryDelay);
      After(deadline.value - env.now + View().Margin(env), EntryOver, env);
    }

    /** Ranges over lastAlarm in whatever order, and stops at the first watched
        sensor in alarm. */
    method StillInAlarm(env: Env) returns (ghost pick: Option<int>)
      requires Around(env)
      modifies this, siren, siren.radio`sent
      ensures Picks(old(View()).InAlarm(cfg, old(mode)), pick)
      ensures Did(old(View()).StillInAlarm(cfg, pick, env))
    {
      var todo := lastAlarm.Keys;
      while todo != {}
        invariant todo <= lastAlarm.Keys
        invariant View().InAlarm(cfg, mode) <= todo
        invariant View() == old(View()) && siren.View() == old(siren.View())
        invariant siren.radio.sent == old(siren.radio.sent) && siren.radio.present == old(siren.radio.present)
        decreases todo
      {
        var id := Choose(todo);
        if lastAlarm[id] && View().Watched(cfg, id) {
          assert id in old(View()).InAlarm(cfg, old(mode));
          SensorAlarm(id, env);
          return Some(id);
        }
        todo := todo - {id};
      }
      pick := None;
    }

    method EnterArmed(env: Env) returns (ghost pick: Option<int>)
      requires Around(env) && !mode.NoMode?
      modifies this, siren, siren.radio`sent
      ensures Picks(old(View()).InAlarm(cfg, old(mode)), pick)
      ensures Did(old(View()).EnterArmed(cfg, pick, env))
    {
      armedAt := env.now;
      Transition(StateOf(mode), env);
      assert View().InAlarm(cfg, mode) == old(View()).InAlarm(cfg, old(mode));
      pick := StillInAlarm(env);
    }

    /** pick only matters to an arming that is taken; it is then a sensor still
        in alarm under the mode asked for, if there is one. */
    method HandleCommand(cmd: Cmd, local: bool, env: Env) returns (ghost pick: Option<int>)
      requires Around(env)
      modifies this, siren, siren.radio`sent
      ensures cmd.ArmCmd? ==> Picks(old(View()).InAlarm(cfg, if cmd.night then Night else Away), pick)
      ensures Did(old(View()).Command(cfg, cmd, local, pick, env))
    {
      pick := None;
      match cmd {
        case DisarmCmd =>
          if state == Disarmed { return; }
          Transition(Disarmed, env);
          siren.Disarm();
          ForwardOne(old(siren.View()), env.present, CallDisarm);
        case ArmCmd(night) =>
          var m := if night then Night else Away;
          pick := AnyPick(View().InAlarm(cfg, m));
          match state {
            case Disarmed =>
              if local {
                StartArming(m, env);
              } else {
                pick := ArmAtOnce(m, env);
              }
            case ArmedAway => pick := SwitchMode(m, env);
            case ArmedNight => pick := SwitchMode(m, env);
            case _ =>
          }
        case UnknownCmd =>
      }
    }

    method StartArming(m: Mode, env: Env)
      requires Around(env)
      modifies this, siren, siren.radio`sent
      ensures Did(old(View()).StartArming(m, env))
    {
      mode, trigBy := m, 0;
      siren.Arm(m == Night, true);
      ForwardOne(old(siren.View()), env.present, CallArm(m.Night?, true));
      Transition(Arming, env);
      After(armingDelay + View().Margin(env), ExitOver, env);
    }

    method ArmAtOnce(m: Mode, env: Env) returns (ghost pick: Option<int>)
      requires Around(env) && !m.NoMode?
      modifies this, siren, siren.radio`sent
      ensures Picks(old(View()).InAlarm(cfg, m), pick)
      ensures Did(old(View()).ArmAtOnce(cfg, m, pick, env))
    {
      mode, trigBy := m, 0;
      siren.Arm(m == Night, false);
      ghost var e := View();
      assert e.InAlarm(cfg, m) == old(View()).InAlarm(cfg, m);
      pick := EnterArmed(env);
      ForwardThen(old(siren.View()), env.present, CallArm(m.Night?, false), e.EnterArmed(cfg, pick, env).calls,
                  old(siren.radio.sent));
    }

    method SwitchMode(m: Mode, env: Env) returns (ghost pick: Option<int>)
      requires Around(env) && !m.NoMode?
      modifies this, siren, siren.radio`sent
      ensures Picks(old(View()).InAlarm(cfg, m), pick)
      ensures Did(old(View()).SwitchMode(cfg, m, pick, env))
    {
      if state == StateOf(m) {
        pick := AnyPick(View().InAlarm(cfg, m));
        return;
      }
      mode := m;
      Transition(StateOf(m), env);
      siren.Arm(m == Night, false);
      ghost var e := View();
      assert e.InAlarm(cfg, m) == old(View()).InAlarm(cfg, m);
      pick := StillInAlarm(env);
      ForwardThen(old(siren.View()), env.present, CallArm(m.Night?, false), e.StillInAlarm(cfg, pick, env).calls,
                  old(siren.radio.sent));
    }

    method HandleSensorEvent(id: int, keypad: bool, inAlarm: bool, env: Env)
      requires Around(env)
      modifies this, siren, siren.radio`sent
      ensures Did(old(View()).SensorEvent(cfg, id, keypad, inAlarm, env))
    {
      if keypad { return; }
      lastAlarm := lastAlarm[id := inAlarm];
      if !inAlarm || !View().Watched(cfg, id) { return; }
      match state {
        case ArmedAway => SensorAlarm(id, env);
        case ArmedNight => SensorAlarm(id, env);
        case Pending => SensorAlarm(id, env);
        case Triggered => SensorAlarm(id, env);
        case _ =>
      }
    }

    method HandleSirenState(s: S.SirenState, env: Env) returns (ghost pick: Option<int>)
      requires Around(env)
      requires state.Arming? ==> !mode.NoMode?
      modifies this, siren, siren.radio`sent
      ensures Picks(old(View()).InAlarm(cfg, old(mode)), pick)
      ensures Did(old(View()).SirenReport(cfg, s, pick, env))
    {
      pick := AnyPick(View().InAlarm(cfg, mode));
      if s.Armed? && state.Arming? {
        pick := EnterArmed(env);
      } else if s.EntryDelay? && (state.ArmedAway? || state.ArmedNight?) {
        Transition(Pending, env);
        After(deadline.value - env.now + View().Margin(env), EntryOver, env);
      } else if (s.Alert? || s.AlertOver?) && !state.Disarmed? && !state.Triggered? {
        Transition(Triggered, env);
      }
    }

    /** The i-th timer scheduled runs. */
    method Fire(i: nat, env: Env) returns (ghost pick: Option<int>)
      requires Around(env) && i < |timers|
      requires state.Arming? ==> !mode.NoMode?
      modifies this, siren, siren.radio`sent
      ensures Picks(old(View()).InAlarm(cfg, old(mode)), pick)
      ensures Did(old(View()).Fire(cfg, i, pick, env))
    {
      pick := AnyPick(View().InAlarm(cfg, mode));
      var t := timers[i];
      timers := timers[..i] + timers[i + 1..];
      assert View().InAlarm(cfg, mode) == old(View()).InAlarm(cfg, old(mode));
      if timerGen == t.gen {
        match t.kind {
          case ExitOver =>
            if state == Arming { pick := EnterArmed(env); }
          case EntryOver =>
            if state == Pending { Trigger(env); }
        }
      }
    }

    method Restore(p: Persisted)
      modifies this
      ensures View() == old(View()).Restored(p)
    {
      var m := FileMode(p);
      match p.state {
        case None => state := Disarmed;
        case Some(s) =>
          match s {
            case Disarmed => state := Disarmed;
            case Pending => state, mode, armedAt, trigBy := s, m, p.armedAt, p.trigBy;
            case Triggered => state, mode, armedAt, trigBy := s, m, p.armedAt, p.trigBy;
            case _ => state, mode, armedAt := StateOf(m), m, p.armedAt;
          }
      }
    }

    method Load(env: Env)
      requires Around(env)
      modifies this, siren, siren.radio`sent
      ensures Did(old(View()).Load(env))
    {
      ForwardOne(siren.View(), env.present, CallDisarm);
      if !disk.File? {
        siren.Disarm();
        return;
      }
      Restore(disk.p);
      if state == Disarmed {
        siren.Disarm();
        return;
      }
      ForwardOne(siren.View(), env.present, CallArm(mode.Night?, false));
      siren.Arm(mode == Night, false);
      if state == Pending {
        deadline := Some(env.now + pendingDelay);
        After(deadline.value - env.now + View().Margin(env), EntryOver, env);
      }
    }

    method Close()
      modifies `timerGen, `closed
      ensures View() == old(View()).Close()
    {
      timerGen, closed := timerGen + 1, true;
    }

    method SetTimings(arming: int, pending: int)
      modifies `armingDelay, `pendingDelay
      ensures View() == old(View()).SetTimings(arming, pending)
    {
      if arming > 0 { armingDelay := arming; }
      if pending > 0 { pendingDelay := pending; }
    }
  }

  ghost function AnyPick<T>(candidates: set<T>): (pick: Option<T>)
    ensures Picks(candidates, pick)
  {
    if candidates == {} then None else var x :| x in candidates; Some(x)
  }
}
