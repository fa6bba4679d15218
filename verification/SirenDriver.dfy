/** The siren as its bytecode takes commands, and the driver that keeps it in
    the state the alarm wants (internal/alarm/siren.go). */

module Wrappers {
  datatype Option<+T> = None | Some(value: T)

  /** Any element, as a range over a map comes upon it. */
  method Choose<T(==)>(s: set<T>) returns (x: T)
    requires s != {}
    ensures x in s
  {
    x :| x in s;
  }
}

module Siren {
  import opened Wrappers

  datatype SirenState = Off | Test | ExitDelay | Armed | EntryDelay | Alert | AlertOver

  /** What the radio sends the siren, in order. */
  datatype Command =
    | DoArm(night: bool, delayed: bool)
    | DoDisarm
    | DoEntryDelay
    | DoAlert
    | DoWail
    | AskState

  /** The siren: its state, and the mode of the last arming it took. */
  datatype Siren = Siren(state: SirenState, night: bool) {
    predicate On() { !state.Off? && !state.Test? }
  }

  /** A command is taken only in the states of the siren's bytecode. */
  function Apply(s: Siren, c: Command): Siren {
    match c
    case DoArm(night, delayed) =>
      if s.state.Off? then Siren(if delayed then ExitDelay else Armed, night) else s
    case DoDisarm => s.(state := Off)
    case DoEntryDelay => if s.state.Armed? then s.(state := EntryDelay) else s
    case DoAlert =>
      if s.state.Armed? || s.state.EntryDelay? || s.state.AlertOver? then s.(state := Alert) else s
    case DoWail => if s.state.Off? then s.(state := Test) else s
    case AskState => s
  }

  /** The siren once every queued command is applied. */
  function Drain(s: Siren, queue: seq<Command>): Siren
    decreases |queue|
  {
    if queue == [] then s else Drain(Apply(s, queue[0]), queue[1..])
  }

  /** What the siren does by itself: the end of a delay or of a sound, a
      sensor it hears while the gateway is gone, a reboot. */
  predicate Moves(s: Siren, t: Siren) {
    s.night == t.night &&
    match t.state
    case Off => true
    case Armed => s.state.ExitDelay?
    case EntryDelay => s.state.Armed?
    case Alert => s.state.Armed? || s.state.EntryDelay? || s.state.AlertOver?
    case AlertOver => s.state.Alert?
    case _ => false
  }

  lemma {:induction false} DrainAppend(s: Siren, a: seq<Command>, b: seq<Command>)
    ensures Drain(s, a + b) == Drain(Drain(s, a), b)
    decreases |a|
  {
    if a == [] {
      assert a + b == b;
    } else {
      assert (a + b)[1..] == a[1..] + b;
      DrainAppend(Apply(s, a[0]), a[1..], b);
    }
  }

  lemma {:induction false} DrainFew(s: Siren, queue: seq<Command>)
    ensures |queue| == 1 ==> Drain(s, queue) == Apply(s, queue[0])
    ensures |queue| == 2 ==> Drain(s, queue) == Apply(Apply(s, queue[0]), queue[1])
  {
    if |queue| == 2 {
      assert queue[1..][0] == queue[1] && queue[1..][1..] == [];
      assert Drain(Apply(s, queue[0]), queue[1..]) == Drain(Apply(Apply(s, queue[0]), queue[1]), queue[1..][1..]);
    }
  }

  /** Nothing in the queue arms a siren that ends off: no arming after the
      last disarm, or none at all and a siren off (or testing) already. */
  predicate Settled(s: Siren, queue: seq<Command>)
    decreases |queue|
  {
    if queue == [] then !s.On()
    else if queue[|queue| - 1].DoDisarm? then true
    else !queue[|queue| - 1].DoArm? && Settled(s, queue[..|queue| - 1])
  }

  lemma {:induction false} SettledDrainsOff(s: Siren, queue: seq<Command>)
    requires Settled(s, queue)
    ensures !Drain(s, queue).On()
    decreases |queue|
  {
    if queue != [] {
      var n := |queue| - 1;
      assert queue == queue[..n] + [queue[n]];
      DrainAppend(s, queue[..n], [queue[n]]);
      if !queue[n].DoDisarm? { SettledDrainsOff(s, queue[..n]); }
    }
  }

  lemma {:induction false} SettledPush(s: Siren, queue: seq<Command>, c: Command)
    requires c.DoDisarm? || (Settled(s, queue) && !c.DoArm?)
    ensures Settled(s, queue + [c])
  {
    assert (queue + [c])[..|queue|] == queue;
  }

  lemma {:induction false} SettledAppend(s: Siren, queue: seq<Command>, more: seq<Command>)
    requires Settled(s, queue)
    requires forall c :: c in more ==> !c.DoArm?
    ensures Settled(s, queue + more)
    decreases |more|
  {
    if more == [] {
      assert queue + more == queue;
    } else {
      SettledPush(s, queue, more[0]);
      assert queue + more == queue + [more[0]] + more[1..];
      SettledAppend(s, queue + [more[0]], more[1..]);
    }
  }

  lemma {:induction false} SettledDeliver(s: Siren, queue: seq<Command>)
    requires queue != [] && Settled(s, queue)
    ensures Settled(Apply(s, queue[0]), queue[1..])
    decreases |queue|
  {
    var n := |queue| - 1;
    if n > 0 {
      assert queue[1..][|queue[1..]| - 1] == queue[n];
      assert queue[1..][..n - 1] == queue[..n][1..];
      if !queue[n].DoDisarm? { SettledDeliver(s, queue[..n]); }
    } else if !queue[0].DoDisarm? {
      assert Settled(s, queue[..n]);
    }
  }

  lemma {:induction false} SettledMoves(s: Siren, t: Siren, queue: seq<Command>)
    requires Settled(s, queue) && Moves(s, t)
    ensures Settled(t, queue)
    decreases |queue|
  {
    if queue != [] && !queue[|queue| - 1].DoDisarm? {
      SettledMoves(s, t, queue[..|queue| - 1]);
    }
  }

  /** Being on is decided by being on: a siren that moves by itself among the
      states that are on drains to a siren that is on just when it did before. */
  lemma {:induction false} OnDrainsOn(s: Siren, t: Siren, queue: seq<Command>)
    requires s.On() && t.On()
    ensures Drain(s, queue).On() <==> Drain(t, queue).On()
    decreases |queue|
  {
    if queue != [] {
      var s', t' := Apply(s, queue[0]), Apply(t, queue[0]);
      if queue[0].DoDisarm? {
        OffDrainsAlike(s', t', queue[1..]);
      } else {
        OnDrainsOn(s', t', queue[1..]);
      }
    }
  }

  lemma {:induction false} OffDrainsAlike(s: Siren, t: Siren, queue: seq<Command>)
    requires s.state == t.state && s.state in {Off, Test}
    ensures Drain(s, queue).On() <==> Drain(t, queue).On()
    decreases |queue|
  {
    if queue != [] {
      var s', t' := Apply(s, queue[0]), Apply(t, queue[0]);
      if s'.On() {
        OnDrainsOn(s', t', queue[1..]);
      } else {
        OffDrainsAlike(s', t', queue[1..]);
      }
    }
  }

  /** The end of a test sound turns no drained siren off. */
  lemma {:induction false} TestEndKeepsOn(s: Siren, t: Siren, queue: seq<Command>)
    requires s.state.Test? && t.state.Off?
    ensures Drain(s, queue).On() ==> Drain(t, queue).On()
    decreases |queue|
  {
    if queue != [] {
      var s', t' := Apply(s, queue[0]), Apply(t, queue[0]);
      if t'.On() {
        NeverOffUnderArming(s', t', queue[1..]);
      } else if s'.state == t'.state {
        OffDrainsAlike(s', t', queue[1..]);
      } else {
        TestEndKeepsOn(s', t', queue[1..]);
      }
    }
  }

  lemma {:induction false} NeverOffUnderArming(s: Siren, t: Siren, queue: seq<Command>)
    requires s.state.Test? && t.On()
    ensures Drain(s, queue).On() ==> Drain(t, queue).On()
    decreases |queue|
  {
    if queue != [] {
      var s', t' := Apply(s, queue[0]), Apply(t, queue[0]);
      if queue[0].DoDisarm? {
        OffDrainsAlike(s', t', queue[1..]);
      } else {
        NeverOffUnderArming(s', t', queue[1..]);
      }
    }
  }

  /** Nor does it decide the mode: only a disarm lets an arming change it. */
  lemma {:induction false} OnDrainsMode(s: Siren, t: Siren, queue: seq<Command>)
    requires s.On() && t.On() && s.night == t.night
    ensures Drain(s, queue).night == Drain(t, queue).night
    decreases |queue|
  {
    if queue != [] && !queue[0].DoDisarm? { OnDrainsMode(Apply(s, queue[0]), Apply(t, queue[0]), queue[1..]); }
  }

  /** A siren that drains on from off owes its mode to what is queued. */
  lemma {:induction false} OffDrainsMode(s: Siren, t: Siren, queue: seq<Command>)
    requires s.state == t.state && s.state in {Off, Test} && Drain(s, queue).On()
    ensures Drain(t, queue) == Drain(s, queue)
    decreases |queue|
  {
    var s', t' := Apply(s, queue[0]), Apply(t, queue[0]);
    if !s'.On() { OffDrainsMode(s', t', queue[1..]); }
  }

  lemma {:induction false} TestDrainsMode(s: Siren, t: Siren, queue: seq<Command>)
    requires s.state.Test? && Drain(s, queue).On()
    ensures Drain(t, queue) == Drain(s, queue)
    decreases |queue|
  {
    var s', t' := Apply(s, queue[0]), Apply(t, queue[0]);
    if queue[0].DoDisarm? {
      OffDrainsMode(s', t', queue[1..]);
    } else {
      TestDrainsMode(s', t', queue[1..]);
    }
  }

  /** Commands other than a disarm leave a siren that is on, on. */
  lemma {:induction false} StaysOn(s: Siren, queue: seq<Command>)
    requires s.On()
    requires forall c :: c in queue ==> !c.DoDisarm?
    ensures Drain(s, queue).On()
    decreases |queue|
  {
    if queue != [] { StaysOn(Apply(s, queue[0]), queue[1..]); }
  }
}

/** The driver on values: each call gives the new driver and the commands it
    sends. The class below is proved against it. */
module DriverModel {
  import opened Wrappers
  import opened Siren

  const SECOND := 1_000_000_000
  const REARM_EVERY := 5 * SECOND

  datatype Want = WantUnknown | WantOff | WantArmed

  datatype Effect = Effect(driver: Driver, commands: seq<Command>)

  /** timers holds the due times of the retries scheduled and not run yet. */
  datatype Driver = Driver(want: Want, night: bool, armed: Option<bool>, last: Option<SirenState>,
                           delayed: Option<bool>, lastRearm: Option<int>, retrying: bool, timers: seq<int>)
  {
    function ArmNow(withDelay: bool): Effect {
      Effect(this.(armed := Some(night), delayed := None, last := Some(if withDelay then ExitDelay else Armed)),
             [DoArm(night, withDelay)])
    }

    /** An arming of a siren last seen armed for another mode, for a mode not
        known, or in an exit delay it must not wait for. */
    predicate Reissues(forNight: bool, withDelay: bool) {
      (last == Some(Armed) && armed != Some(forNight))
      || (last == Some(ExitDelay) && (armed != Some(forNight) || !withDelay))
    }

    function Arm(present: bool, forNight: bool, withDelay: bool): Effect {
      var d := this.(want := WantArmed, night := forNight);
      if !present then Effect(d, [])
      else if last.None? then Effect(d.(delayed := Some(withDelay)), [AskState])
      else match last.value
        case EntryDelay => Effect(d, [])
        case Alert => Effect(d, [])
        case AlertOver => Effect(d, [])
        case Off => d.ArmNow(withDelay)
        case Test => d.ArmNow(withDelay)
        case _ =>
          if armed == Some(forNight) && (last.value.Armed? || withDelay) then Effect(d, [])
          else var e := d.ArmNow(withDelay); Effect(e.driver, [DoDisarm] + e.commands)
    }

    /** How much longer a re-arming must wait; none before the first. */
    function Wait(now: int): int {
      if lastRearm.None? then 0 else REARM_EVERY - (now - lastRearm.value)
    }

    function Rearm(now: int): Effect {
      if Wait(now) > 0 then
        if retrying then Effect(this, [])
        else Effect(this.(retrying := true, timers := timers + [now + Wait(now)]), [])
      else this.(lastRearm := Some(now)).ArmNow(false)
    }

    function RetryFires(i: nat): Effect
      requires i < |timers|
    {
      Effect(this.(retrying := false, timers := timers[..i] + timers[i + 1..]),
             if want.WantArmed? then [AskState] else [])
    }

    function Disarm(): Effect {
      Effect(this.(want := WantOff, armed := None, delayed := None, last := Some(Off)), [DoDisarm])
    }

    function StartEntryDelay(present: bool): Effect {
      Effect(this, if present then [DoEntryDelay] else [])
    }

    function SetOff(present: bool): Effect {
      Effect(this, if present then [DoAlert, DoWail] else [])
    }

    function HandleReport(s: SirenState, present: bool, now: int): Effect {
      var d := this.(last := Some(s));
      var on := !s.Off? && !s.Test?;
      if !present then Effect(d, if on then [DoDisarm] else [])
      else if want.WantOff? && on then Effect(d, [DoDisarm])
      else if want.WantArmed? && s.Off? && delayed.Some? then d.ArmNow(delayed.value)
      else if want.WantArmed? && s.Off? then d.Rearm(now)
      else Effect(d, [])
    }

    /** retrying holds exactly while one retry is scheduled. */
    predicate Valid() {
      (retrying ==> |timers| == 1) && (!retrying ==> timers == [])
    }
  }

  const NEW := Driver(WantUnknown, false, None, None, None, None, false, [])

  /** Whatever a driver that wants the siren off does, it sends no arming, and
      the siren stays bound to end off. */
  lemma {:induction false} OffSendsNoArming(d: Driver, s: SirenState, present: bool, now: int, c: Siren,
                                            queue: seq<Command>)
    requires d.want.WantOff? && Settled(c, queue)
    ensures Settled(c, queue + d.HandleReport(s, present, now).commands)
    ensures Settled(c, queue + d.SetOff(present).commands)
    ensures Settled(c, queue + d.StartEntryDelay(present).commands)
    ensures forall i :: 0 <= i < |d.timers| ==> Settled(c, queue + d.RetryFires(i).commands)
  {
    SettledAppend(c, queue, d.HandleReport(s, present, now).commands);
    SettledAppend(c, queue, d.SetOff(present).commands);
    SettledAppend(c, queue, d.StartEntryDelay(present).commands);
    forall i | 0 <= i < |d.timers| ensures Settled(c, queue + d.RetryFires(i).commands) {
      SettledAppend(c, queue, d.RetryFires(i).commands);
    }
  }

  /** A disarm settles the siren whatever was queued before it. */
  lemma {:induction false} DisarmSettles(d: Driver, c: Siren, queue: seq<Command>)
    ensures Settled(c, queue + d.Disarm().commands)
    ensures !Drain(c, queue + d.Disarm().commands).On()
  {
    SettledPush(c, queue, DoDisarm);
    SettledDrainsOff(c, queue + d.Disarm().commands);
  }

  /** No report moves a drained siren that is on off while it is wanted armed:
      at most an arming goes out, which such a siren ignores. */
  lemma {:induction false} ReportKeepsArmed(d: Driver, s: SirenState, now: int, c: Siren, queue: seq<Command>)
    requires d.want.WantArmed? && Drain(c, queue).On()
    ensures Drain(c, queue + d.HandleReport(s, true, now).commands) == Drain(c, queue)
  {
    DrainAppend(c, queue, d.HandleReport(s, true, now).commands);
    DrainFew(Drain(c, queue), d.HandleReport(s, true, now).commands);
  }

  lemma {:induction false} RetryKeepsArmed(d: Driver, i: nat, c: Siren, queue: seq<Command>)
    requires i < |d.timers|
    ensures Drain(c, queue + d.RetryFires(i).commands) == Drain(c, queue)
  {
    DrainAppend(c, queue, d.RetryFires(i).commands);
    DrainFew(Drain(c, queue), d.RetryFires(i).commands);
  }

  /** Every off report of a siren wanted armed is acted upon, however late:
      an arming for the wanted mode goes out, which a siren that is off takes
      and one that is on ignores, or a state request is due within REARM_EVERY. */
  lemma {:induction false} OffReportRearms(d: Driver, now: int, c: Siren, queue: seq<Command>)
    requires d.Valid() && d.want.WantArmed?
    requires d.retrying ==> d.timers[0] <= now + REARM_EVERY
    requires d.lastRearm.Some? ==> d.lastRearm.value <= now
    ensures var e := d.HandleReport(Off, true, now);
      var before, after := Drain(c, queue), Drain(c, queue + e.commands);
      var waits := d.delayed.Some? && d.delayed.value;
      if e.commands != [] then
        && e.commands == [DoArm(d.night, waits)] && e.driver.armed == Some(d.night)
        && after == if before.state.Off? then Siren(if waits then ExitDelay else Armed, d.night) else before
      else
        && after == before && e.driver.retrying && |e.driver.timers| == 1
        && e.driver.timers[0] <= now + REARM_EVERY && e.driver.RetryFires(0).commands == [AskState]
  {
    var e := d.HandleReport(Off, true, now);
    DrainAppend(c, queue, e.commands);
    DrainFew(Drain(c, queue), e.commands);
  }

  /** Which mode an arming leaves. The driver goes by the last report, so a
      stale one misleads it: the drained siren ends on in the mode asked for
      exactly when the driver arms it again, a disarm first, or the siren can take the
      arming sent (it is off), or it is on in that mode already. */
  lemma {:induction false} ArmTakesExactly(d: Driver, night: bool, delayed: bool, c: Siren, queue: seq<Command>)
    ensures var e := d.Arm(true, night, delayed);
      var before := Drain(c, queue);
      var after := Drain(c, queue + e.commands);
      (after.On() && after.night == night) <==>
      (d.Reissues(night, delayed)
       || (before.On() && before.night == night)
       || (before.state.Off? && d.last in {Some(Off), Some(Test)}))
  {
    var e := d.Arm(true, night, delayed);
    var before := Drain(c, queue);
    DrainAppend(c, queue, e.commands);
    DrainFew(before, e.commands);
  }

  /** A drained siren that is on takes the mode of an arming exactly when the
      driver disarms it first. */
  lemma {:induction false} ArmOnTakes(d: Driver, night: bool, delayed: bool, c: Siren, queue: seq<Command>)
    requires Drain(c, queue).On()
    ensures var after := Drain(c, queue + d.Arm(true, night, delayed).commands);
      && after.On()
      && after.night == if d.Reissues(night, delayed) then night else Drain(c, queue).night
  {
    var e := d.Arm(true, night, delayed);
    DrainAppend(c, queue, e.commands);
    DrainFew(Drain(c, queue), e.commands);
  }

  /** How a driver comes to be misled: two late reports of an old disarm, then
      a switch to the night. The siren stays armed for the day, the driver
      takes it as armed for the night, and no report of it says otherwise. */
  lemma {:induction false} StaleReportsLeaveTheWrongMode(now: int)
    ensures var a := NEW.Disarm();
      var b := a.driver.Arm(true, false, false);
      var c := b.driver.HandleReport(Off, true, now);
      var e := c.driver.HandleReport(Off, true, now);
      var f := e.driver.Arm(true, true, false);
      var queue := a.commands + b.commands + c.commands + e.commands + f.commands;
      && Drain(Siren(Off, false), queue) == Siren(Armed, false)
      && f.driver.want.WantArmed? && f.driver.night && f.driver.armed == Some(true)
      && forall later :: f.driver.HandleReport(Armed, true, later).commands == []
  {
    var s := Siren(Off, false);
    var armed := Siren(Armed, false);
    var tail := [DoArm(false, false)] + [DoArm(true, false)];
    DrainFew(armed, tail);
    DrainFew(s, [DoDisarm, DoArm(false, false)]);
    DrainAppend(s, [DoDisarm, DoArm(false, false)], tail);
    assert [DoDisarm] + [DoArm(false, false)] + [DoArm(false, false)] + [] + [DoArm(true, false)]
        == [DoDisarm, DoArm(false, false)] + tail;
  }

  /** With a driver that knows the siren as it is, an arming leaves a siren off
      or armed on in the mode asked for; one in an alarm is kept as it is. */
  lemma {:induction false} KnownSirenIsArmed(d: Driver, night: bool, delayed: bool, c: Siren, queue: seq<Command>)
    requires d.last == Some(Drain(c, queue).state)
    requires d.armed.Some? ==> d.armed.value == Drain(c, queue).night
    requires !d.last.value.Test?
    ensures var before := Drain(c, queue);
      var after := Drain(c, queue + d.Arm(true, night, delayed).commands);
      if before.state in {EntryDelay, Alert, AlertOver} then after == before
      else after.night == night && after.state in {Armed, ExitDelay} && (!delayed ==> after.state.Armed?)
  {
    var e := d.Arm(true, night, delayed);
    var before := Drain(c, queue);
    DrainAppend(c, queue, e.commands);
    DrainFew(before, e.commands);
  }
}

/** The driver as the source has it: fields updated in place, commands sent
    through the radio. */
module SirenDriverClass {
  import opened Wrappers
  import opened Siren
  import opened DriverModel

  class Radio {
    var present: bool
    var sent: seq<Command>

    constructor ()
      ensures sent == []
    { sent := []; }

    method Send(c: Command)
      modifies `sent
      ensures sent == old(sent) + [c]
    { sent := sent + [c]; }
  }

  class SirenDriver {
    const radio: Radio
    var want: Want
    var night: bool
    var armed: Option<bool>
    var last: Option<SirenState>
    var delayed: Option<bool>
    var lastRearm: Option<int>
    var retrying: bool
    var timers: seq<int>

    function View(): Driver
      reads this
    {
      Driver(want, night, armed, last, delayed, lastRearm, retrying, timers)
    }

    constructor (radio: Radio)
      ensures this.radio == radio && View() == NEW
    {
      this.radio := radio;
      want, night, armed, last, delayed, lastRearm, retrying, timers :=
        WantUnknown, false, None, None, None, None, false, [];
    }

    /** The call changed the driver and sent commands as the effect says. */
    twostate predicate Did(e: Effect)
      reads this, radio
    {
      View() == e.driver && radio.sent == old(radio.sent) + e.commands && radio.present == old(radio.present)
    }

    method ArmNow(withDelay: bool)
      modifies this, radio`sent
      ensures Did(old(View()).ArmNow(withDelay))
    {
      armed, delayed := Some(night), None;
      last := Some(Armed);
      if withDelay { last := Some(ExitDelay); }
      radio.Send(DoArm(night, withDelay));
    }

    method Arm(forNight: bool, withDelay: bool)
      modifies this, radio`sent
      ensures Did(old(View()).Arm(old(radio.present), forNight, withDelay))
    {
      want, night := WantArmed, forNight;
      if !radio.present { return; }
      match last {
        case None =>
          delayed := Some(withDelay);
          radio.Send(AskState);
        case Some(s) =>
          match s {
            case EntryDelay =>
            case Alert =>
            case AlertOver =>
            case Off => ArmNow(withDelay);
            case Test => ArmNow(withDelay);
            case _ =>
              if armed == Some(forNight) && (s.Armed? || withDelay) { return; }
              radio.Send(DoDisarm);
              ArmNow(withDelay);
          }
      }
    }

    method Rearm(now: int)
      modifies this, radio`sent
      ensures Did(old(View()).Rearm(now))
    {
      var wait := 0;
      if lastRearm.Some? { wait := REARM_EVERY - (now - lastRearm.value); }
      if wait > 0 {
        if !retrying {
          retrying := true;
          timers := timers + [now + wait];
        }
        return;
      }
      lastRearm := Some(now);
      ArmNow(false);
    }

    /** The i-th retry scheduled runs. */
    method RetryFires(i: nat)
      requires i < |timers|
      modifies this, radio`sent
      ensures Did(old(View()).RetryFires(i))
    {
      timers := timers[..i] + timers[i + 1..];
      retrying := false;
      if want == WantArmed { radio.Send(AskState); }
    }

    method Disarm()
      modifies this, radio`sent
      ensures Did(old(View()).Disarm())
    {
      want, armed, delayed := WantOff, None, None;
      last := Some(Off);
      radio.Send(DoDisarm);
    }

    method StartEntryDelay()
      modifies radio`sent
      ensures Did(old(View()).StartEntryDelay(old(radio.present)))
    {
      if radio.present { radio.Send(DoEntryDelay); }
    }

    method SetOff()
      modifies radio`sent
      ensures Did(old(View()).SetOff(old(radio.present)))
    {
      if radio.present {
        radio.Send(DoAlert);
        radio.Send(DoWail);
      }
    }

    method HandleReport(s: SirenState, now: int)
      modifies this, radio`sent
      ensures Did(old(View()).HandleReport(s, old(radio.present), now))
    {
      last := Some(s);
      if !radio.present {
        if s != Off && s != Test { radio.Send(DoDisarm); }
      } else if want == WantOff && s != Off && s != Test {
        radio.Send(DoDisarm);
      } else if want == WantArmed && s == Off && delayed.Some? {
        ArmNow(delayed.value);
      } else if want == WantArmed && s == Off {
        Rearm(now);
      }
    }
  }
}
