/**
 * What every run of the direct charger keeps: the lifecycle, the cached input
 * limit and the Requests it puts to the source.
 */
module Sm5440Safety {
  import opened Numbers
  import opened Sm5440Spec

  /** The lifecycle invariant. */

  predicate Cached(p: Pump) {
    p.progIbusMa != 0 ==>
      && 1200 <= p.progIbusMa <= 4800
      && Reg(p.regs, IBUSCNTL) == p.progIbusMa / 50
  }

  predicate Counters(p: Pump) {
    p.ppsTicks < 2 && p.cvTicks < 3 && p.satTicks < 8
  }

  // The record of a driver that is not charging.
  predicate Parked(p: Pump) {
    && !p.active && !p.direct
    && p.progIbusMa == 0 && p.ppsTicks == 0 && p.cvTicks == 0 && p.satTicks == 0
  }

  // Holds in every run, whatever fails.
  predicate Sane(p: Pump) {
    p.active == p.direct && (p.active || Parked(p)) && Counters(p) && Cached(p)
  }

  // An inactive driver's pump and watchdog are off.
  predicate Quiet(p: Pump) {
    p.active || (!ChargeOn(p.regs) && !WatchdogOn(p.regs))
  }

  // The state after probe.
  predicate Idle(p: Pump) { Parked(p) && Quiet(p) }

  // Bit `unit`, over a number whose higher part is even.
  lemma FieldBit(high: nat, unit: nat, bit: nat, low: nat)
    requires bit < 2 && low < unit
    ensures ((high * 2 + bit) * unit + low) / unit % 2 == bit
  {
    ModUnique((high * 2 + bit) * unit + low, unit, high * 2 + bit, low);
    ModUnique(high * 2 + bit, 2, high, bit);
  }

  // The field a register update sets, and the others it leaves alone.
  lemma ModeSet(regs: Regs, charge: bool)
    ensures ChargeOn(SetMode(regs, charge)) <==> charge
    ensures forall a :: a != CNTL5 ==> Reg(SetMode(regs, charge), a) == Reg(regs, a)
  {
    var was, bit := Reg(regs, CNTL5), if charge then 1 else 0;
    FieldBit(was / 16 * 2, 4, bit, was % 4);
    assert (was / 16 * 2 * 2 + bit) * 4 + was % 4 == Reg(SetMode(regs, charge), CNTL5);
  }

  lemma WatchdogSet(regs: Regs, on: bool)
    ensures WatchdogOn(SetWatchdog(regs, on)) <==> on
    ensures forall a :: a != CNTL1 ==> Reg(SetWatchdog(regs, on), a) == Reg(regs, a)
  {
    var was, bit := Reg(regs, CNTL1), if on then 1 else 0;
    FieldBit(was / 256, 128, bit, was % 128);
    assert (was / 256 * 2 + bit) * 128 + was % 128 == Reg(SetWatchdog(regs, on), CNTL1);
  }

  lemma SameCharge(a: Regs, b: Regs)
    requires Reg(a, CNTL5) == Reg(b, CNTL5)
    ensures ChargeOn(a) == ChargeOn(b)
  {
  }

  lemma SameWatchdog(a: Regs, b: Regs)
    requires Reg(a, CNTL1) == Reg(b, CNTL1)
    ensures WatchdogOn(a) == WatchdogOn(b)
  {
  }

  // Exactly when a hand-back leaves the pump or its watchdog running.
  lemma RestoreEnds(p: Pump, io: RestoreIo)
    ensures var q := Restore(p, io);
      && (ChargeOn(q.regs) <==> ChargeOn(p.regs) && !io.modeOk)
      && (WatchdogOn(q.regs) <==> WatchdogOn(p.regs) && !io.wdtOk)
      && Parked(q)
  {
    var r1 := if io.modeOk then SetMode(p.regs, false) else p.regs;
    var r2 := if io.adcOk then StopAdc(r1) else r1;
    hide SetMode, SetWatchdog;
    ModeSet(p.regs, false);
    WatchdogSet(r2, false);
    assert Reg(r2, CNTL5) == Reg(r1, CNTL5);
    assert Reg(r2, CNTL1) == Reg(p.regs, CNTL1);
  }

  lemma RestoreParks(p: Pump, io: RestoreIo)
    ensures Parked(Restore(p, io)) && Sane(Restore(p, io))
  {
  }

  lemma ProgramKeeps(p: Pump, knob: nat, step: nat, ok: bool)
    requires step < 3 && Cached(p)
    ensures var (q, done) := ProgramIbus(p, knob, step, ok);
      && Cached(q) && q == p.(regs := q.regs, progIbusMa := q.progIbusMa)
      && (forall a :: a != IBUSCNTL ==> Reg(q.regs, a) == Reg(p.regs, a))
      && (done ==> q.progIbusMa == IbusLimit(knob, step))
  {
  }

  lemma FreqKeeps(p: Pump, io: TickIo)
    ensures var q := ProgramFreq(p, io);
      && q == p.(freqKhz := q.freqKhz, regs := q.regs)
      && (forall a :: a != CNTL7 ==> Reg(q.regs, a) == Reg(p.regs, a))
  {
  }

  lemma StartKeeps(p: Pump, io: StartIo)
    requires Parked(p)
    ensures var o := Start(p, io);
      Sane(o.pump) && (o.pump.active ==> o.serviced && |o.requests| == 1)
  {
    if io.packUv >= 3400 * 1000 && io.directOk {
      var step := StepIndex(io.packUv / 1000);
      var mv := TargetMv(io.packUv);
      var ma := RequestMa(io.opKnob, io.srcMax, mv);
      StartHwKeeps(p.(direct := true), io, step, mv, ma);
    }
  }

  lemma StartHwKeeps(p: Pump, io: StartIo, step: nat, mv: int, ma: int)
    requires p.direct && step < 3 && io.packUv >= 0
    ensures var o := StartHw(p, io, step, mv, ma);
      Sane(o.pump) && (o.pump.active ==> o.serviced && |o.requests| == 1)
  {
    hide Restore, StartPump, ProgramIbus, InitRegs;
    var p1 := p.(regs := InitRegs(p.regs, io));
    RestoreParks(p1, io.restore);
    if InitOk(io) {
      var p2 := p1.(freqKhz := 850, progIbusMa := 0);
      ProgramKeeps(p2, io.ibusKnob, step, io.ibusOk);
      var (p3, ok) := ProgramIbus(p2, io.ibusKnob, step, io.ibusOk);
      RestoreParks(p3, io.restore);
      if ok { StartPumpKeeps(p3, io, step, mv, ma); }
    }
  }

  lemma StartPumpKeeps(p: Pump, io: StartIo, step: nat, mv: int, ma: int)
    requires p.direct && Cached(p) && io.packUv >= 0
    ensures var o := StartPump(p, io, step, mv, ma);
      Sane(o.pump) && (o.pump.active ==> o.serviced && |o.requests| == 1)
  {
    hide Restore;
    RestoreParks(p, io.restore);
    var on := p.(regs := SetMode(p.regs, true));
    RestoreParks(on, io.restore);
    var guarded := on.(regs := SetWatchdog(on.regs, true));
    RestoreParks(guarded, io.restore);
  }

  // What a tick that goes on may rely on.
  lemma FaultBounds(p: Pump, io: TickIo)
    requires !Faulty(p, io) && !HandOff(p, io) && p.cvTicks < 3
    ensures 0 <= io.packUv < 4430 * 1000
    ensures Tapered(io) ==> p.cvTicks + 1 < 3
  {
  }

  lemma TickKeeps(p: Pump, io: TickIo)
    requires Sane(p) && p.active
    ensures var o := Tick(p, io);
      && Sane(o.pump)
      && (o.pump.active ==>
            && o.serviced
            && (p.ppsTicks == 1 ==> o.requests != [])
            && (p.ppsTicks == 0 ==> o.pump.ppsTicks == 1))
  {
    hide Restore, ProgramFreq, ProgramIbus, TickTarget, TickRefresh, Faulty, HandOff, StepIndex;
    RestoreParks(p, io.restore);
    if !Faulty(p, io) {
      var p1 := p.(cvTicks := if Tapered(io) then p.cvTicks + 1 else 0);
      RestoreParks(p1, io.restore);
      if !HandOff(p, io) {
        var p2 := ProgramFreq(p1, io);
        var step := StepIndex(io.packUv / 1000);
        FreqKeeps(p1, io);
        ProgramKeeps(p2.(step := step), io.ibusKnob, step, io.ibusOk);
        var (p3, ok) := ProgramIbus(p2.(step := step), io.ibusKnob, step, io.ibusOk);
        RestoreParks(p3, io.restore);
        FaultBounds(p, io);
        if ok {
          TargetKeeps(p3, io, step);
          RefreshKeeps(TickTarget(p3, io, step), io);
        }
      }
    }
  }

  lemma TargetKeeps(p: Pump, io: TickIo, step: nat)
    requires step < 3 && io.packUv >= 0 && Sane(p) && p.active
    ensures var q := TickTarget(p, io, step);
      && Sane(q) && q.active && q.targetMv > 0 && q.ppsTicks == p.ppsTicks
      && q.regs == p.regs && q.progIbusMa == p.progIbusMa && q.step == p.step
  {
    FloorPositive(Regulated(p, io, TargetIbus(io.aimKnob, step), TargetMv(io.packUv), CeilMv(io.packUv)).0, io.packUv);
  }

  lemma RefreshKeeps(p: Pump, io: TickIo)
    requires Sane(p) && p.active && p.targetMv > 0
    ensures var o := TickRefresh(p, io);
      && Sane(o.pump)
      && (o.pump.active ==>
            && o.serviced
            && (p.ppsTicks == 1 ==> o.requests != [])
            && (p.ppsTicks == 0 ==> o.pump.ppsTicks == 1)
            && o.pump.progIbusMa == p.progIbusMa && o.pump.step == p.step)
  {
    hide Restore, RequestMa, TickWatchdog;
    if p.ppsTicks == 0 {
      WatchdogKeeps(p.(ppsTicks := 1), io, []);
    } else {
      var p1 := p.(ppsTicks := 0);
      var first := Request(p1.targetMv, p1.targetMa, p1.packUv);
      var p2 := p1.(targetMa := RequestMa(io.retryKnob, io.retrySrcMax, p1.targetMv));
      WatchdogKeeps(p1, io, [first]);
      WatchdogKeeps(p2, io, [first, Request(p2.targetMv, p2.targetMa, p2.packUv)]);
      RestoreParks(p2, io.restore);
    }
  }

  lemma WatchdogKeeps(p: Pump, io: TickIo, asked: seq<Request>)
    requires Sane(p) && p.active
    ensures var o := TickWatchdog(p, io, asked);
      && Sane(o.pump) && o.requests == asked
      && (o.pump.active ==>
            o.serviced && o.pump.ppsTicks == p.ppsTicks && o.pump.progIbusMa == p.progIbusMa && o.pump.step == p.step)
  {
    hide Restore;
    RestoreParks(p, io.restore);
  }

  lemma KeepaliveKeeps(p: Pump, io: KeepIo)
    requires Sane(p)
    ensures var o := Keepalive(p, io);
      Sane(o.pump) && (o.pump.active ==> p.active && o.pump.ppsTicks == p.ppsTicks)
  {
    hide Restore;
    if p.keepalivePending && p.active {
      var p1 := p.(keepalivePending := false,
                   regs := if io.wdtOk then SetWatchdog(p.regs, true) else p.regs);
      RestoreParks(p1, io.restore);
    }
  }

  lemma WorkKeeps(p: Pump, io: WorkIo)
    requires Sane(p)
    ensures var o := Work(p, io);
      && Sane(o.pump)
      && (o.pump.active ==>
            && o.serviced
            && (o.requests == [] ==> p.active && p.ppsTicks == 0 && o.pump.ppsTicks == 1))
  {
    hide Keepalive, Tick, Start, Eligible;
    KeepaliveKeeps(p, io.keep);
    var kept := Keepalive(p, io.keep);
    if kept.pump.active {
      TickKeeps(kept.pump, io.tick);
    } else if Eligible(io.gate) {
      StartKeeps(kept.pump, io.start);
    }
  }

  lemma EventKeeps(p: Pump, e: Event)
    requires Sane(p)
    ensures Sane(After(p, e).pump)
  {
    hide Work, Restore;
    match e
    case DoWork(io) => WorkKeeps(p, io);
    case DoSuspend(capable, wdtOk, restore) => RestoreParks(p, restore);
    case AlarmFires =>
    case PumpTrips => TripKeeps(p);
  }

  lemma TripKeeps(p: Pump)
    requires Sane(p)
    ensures Sane(After(p, PumpTrips).pump)
  {
    ModeSet(p.regs, false);
  }

  /** Over every run. */

  // Readings, knobs and I/O are arbitrary, hand-backs included.
  lemma Lifecycle(p: Pump, events: seq<Event>)
    requires Idle(p)
    ensures var q := RunState(p, events);
      && q.active == q.direct
      && (!q.active ==> q.progIbusMa == 0 && q.ppsTicks == 0 && q.cvTicks == 0 && q.satTicks == 0)
      && q.ppsTicks < 2 && q.cvTicks < 3 && q.satTicks < 8
      && Cached(q)
  {
    RunKeeps(p, events);
  }

  lemma {:induction false} RunKeeps(p: Pump, events: seq<Event>)
    requires Sane(p)
    ensures Sane(RunState(p, events))
  {
    hide After;
    if events != [] {
      RunKeeps(p, events[..|events| - 1]);
      EventKeeps(RunState(p, events[..|events| - 1]), events[|events| - 1]);
    }
  }

  predicate NoWork(events: seq<Event>) {
    forall i :: 0 <= i < |events| ==> !events[i].DoWork?
  }

  lemma {:induction false} QuietKeepsTicks(p: Pump, events: seq<Event>)
    requires Sane(p) && NoWork(events)
    ensures var q := RunState(p, events); q.active ==> p.active && q.ppsTicks == p.ppsTicks
  {
    hide Work, SetMode, SetWatchdog;
    if events != [] {
      var before := events[..|events| - 1];
      QuietKeepsTicks(p, before);
      assert !events[|events| - 1].DoWork?;
    }
  }

  // Two work items in a row that leave the pump running, whatever suspends and
  // alarms fall between them, serve the watchdog twice and ask at least once.
  lemma SourceHearsEverySecondTick(p: Pump, events: seq<Event>, first: WorkIo, between: seq<Event>, second: WorkIo)
    requires Idle(p) && NoWork(between)
    ensures
      var w1 := Work(RunState(p, events), first);
      var w2 := Work(RunState(w1.pump, between), second);
      w1.pump.active && w2.pump.active ==> w1.serviced && w2.serviced && w1.requests + w2.requests != []
  {
    hide Work;
    RunKeeps(p, events);
    var q := RunState(p, events);
    WorkKeeps(q, first);
    var w1 := Work(q, first);
    RunKeeps(w1.pump, between);
    QuietKeepsTicks(w1.pump, between);
    WorkKeeps(RunState(w1.pump, between), second);
  }

  /** The input limit in the chip. */

  function DecodedLimit(p: Pump): nat { Reg(p.regs, IBUSCNTL) * 50 }

  lemma TickLimit(p: Pump, io: TickIo)
    requires Sane(p) && p.active
    ensures var q := Tick(p, io).pump;
      q.active ==> q.step < 3 && TargetIbus(io.ibusKnob, q.step) <= DecodedLimit(q) <= 4800
  {
    hide Tick;
    TickKeeps(p, io);
    TickProgram(p, io);
    var q := Tick(p, io).pump;
    if q.active {
      LimitAbove(io.ibusKnob, q.step);
    }
  }

  // In every run: after each work item that ran a tick and stays active the chip's
  // limit covers the aim the knob gave when the limit was programmed, whatever the
  // knob did on earlier ticks.
  lemma LimitCoversAim(p: Pump, events: seq<Event>, io: WorkIo)
    requires Idle(p)
    ensures var was := RunState(p, events);
      var q := Work(was, io).pump;
      Keepalive(was, io.keep).pump.active && q.active ==>
        && io.tick.packUv >= 0 && q.step == StepIndex(io.tick.packUv / 1000)
        && TargetIbus(io.tick.ibusKnob, q.step) <= DecodedLimit(q) <= 4800
  {
    hide Keepalive, Tick, Start;
    RunKeeps(p, events);
    var was := RunState(p, events);
    KeepaliveKeeps(was, io.keep);
    var kept := Keepalive(was, io.keep).pump;
    if kept.active {
      TickLimit(kept, io.tick);
      TickProgram(kept, io.tick);
    }
  }

  lemma TickProgram(p: Pump, io: TickIo)
    requires Sane(p) && p.active
    ensures var q := Tick(p, io).pump;
      q.active ==>
        io.packUv >= 0 && q.step == StepIndex(io.packUv / 1000) && q.progIbusMa == IbusLimit(io.ibusKnob, q.step)
  {
    hide Restore, ProgramFreq, ProgramIbus, TickTarget, TickRefresh, Faulty, HandOff, StepIndex;
    RestoreParks(p, io.restore);
    if !Faulty(p, io) && !HandOff(p, io) {
      var p1 := p.(cvTicks := if Tapered(io) then p.cvTicks + 1 else 0);
      var p2 := ProgramFreq(p1, io);
      FreqKeeps(p1, io);
      var step := StepIndex(io.packUv / 1000);
      ProgramKeeps(p2.(step := step), io.ibusKnob, step, io.ibusOk);
      var (p3, ok) := ProgramIbus(p2.(step := step), io.ibusKnob, step, io.ibusOk);
      RestoreParks(p3, io.restore);
      FaultBounds(p, io);
      if ok {
        TargetKeeps(p3, io, step);
        RefreshKeeps(TickTarget(p3, io, step), io);
      }
    } else {
      RestoreParks(p.(cvTicks := if Tapered(io) then p.cvTicks + 1 else 0), io.restore);
    }
  }

  lemma LimitAbove(knob: nat, step: nat)
    requires step < 3
    ensures TargetIbus(knob, step) <= IbusLimit(knob, step) / 50 * 50
  {
  }

  /** What a tick and a start have to find, in the board's own numbers. */

  // Readings a tick goes on with: nothing failed, nothing past a cut-off, pump and bus
  // up, short of the hand-off voltage, and not the third tapered tick in a row.
  predicate InOrder(p: Pump, io: TickIo) {
    && 0 <= io.capacity < 90 && 0 <= io.packTemp < 440 && 0 <= io.packUv < 4430000 && io.modeOk
    && io.status3 >= 0 && io.status3 / 32 % 2 == 1 && Reg(p.regs, 0x10) / 4 % 2 == 1
    && 0 <= io.vbusMv <= 10800 && io.ibusMa >= 0 && 0 <= io.vbatMv < 4430 && 0 <= io.dieTemp < 1100
    && (io.ibusMa < 1000 ==> p.cvTicks < 2)
  }

  lemma InOrderExactly(p: Pump, io: TickIo)
    ensures InOrder(p, io) <==> !Faulty(p, io) && !HandOff(p, io)
  {
  }

  // The source and the pack a start asks for.
  predicate CanStart(g: GateIo) {
    && g.online > 0 && g.fastCharge && g.ppsSource && 5 <= g.capacity < 90
    && 100 <= g.temp < 420 && 3500000 <= g.packUv < 4350000
  }

  lemma CanStartExactly(g: GateIo)
    ensures CanStart(g) <==> Eligible(g)
  {
  }

  predicate ChipReady(io: StartIo) { io.resetOk && io.initWrites >= 14 && io.latchesOk }

  lemma ChipReadyExactly(io: StartIo)
    ensures ChipReady(io) <==> InitOk(io)
  {
  }

  // One of the first forty readings is high enough and none before it failed.
  predicate BusSettles(busMv: seq<int>, need: int, from: nat) {
    exists k :: from <= k < |busMv| && k < 40 && busMv[k] >= need && busMv[k] >= 0
      && forall j :: from <= j < k ==> 0 <= busMv[j]
  }

  lemma {:induction false} BusSettlesExactly(busMv: seq<int>, need: int, i: nat)
    ensures Settles(busMv, need, i) <==> BusSettles(busMv, need, i)
    decreases 40 - i
  {
    if i < 40 && i < |busMv| && 0 <= busMv[i] < need {
      BusSettlesExactly(busMv, need, i + 1);
    }
  }

  /** Which hand-backs leave the pump or its watchdog on. */

  // A write is lost whose bit is on.
  predicate Loses(charge: bool, watchdog: bool, io: RestoreIo) {
    (charge && !io.modeOk) || (watchdog && !io.wdtOk)
  }

  predicate KeepHandsBack(p: Pump, io: KeepIo) {
    p.keepalivePending && p.active && (io.packTemp >= 440 || io.dieTemp >= 800 || !io.refreshOk)
  }

  // How far a start gets: to the chip, past the limit, to the charge bit, to the end.
  predicate Reaches(io: StartIo) { io.packUv >= 3400 * 1000 && io.directOk }

  predicate Charges(io: StartIo, mv: int) {
    ChipReady(io) && io.ibusOk && io.ppsOk && BusSettles(io.busMv, mv - 700, 0) && io.chargeOk
  }

  predicate Completes(io: StartIo, mv: int) {
    Charges(io, mv) && io.wdtOk && io.status3 >= 0 && io.status3 / 32 % 2 == 1
  }

  predicate StartStrands(charge: bool, watchdog: bool, io: StartIo)
    requires io.packUv >= 0
  {
    var mv := TargetMv(io.packUv);
    && !Completes(io, mv)
    && Loses(charge || Charges(io, mv), (!io.resetOk && watchdog) || (Charges(io, mv) && io.wdtOk), io.restore)
  }

  // The guards and failed transfers that end a tick's charging.
  predicate TickStops(p: Pump, io: TickIo) {
    || !InOrder(p, io)
    || (IbusLimit(io.ibusKnob, StepIndex(io.packUv / 1000)) != p.progIbusMa && !io.ibusOk)
    || (p.ppsTicks + 1 >= 2 && !io.refreshOk && !io.retryOk)
    || !io.wdtOk
  }

  // The two bits after the keepalive at the head of the work.
  predicate HeldCharge(p: Pump, io: KeepIo) {
    ChargeOn(p.regs) && !(KeepHandsBack(p, io) && io.restore.modeOk)
  }

  predicate HeldWatchdog(p: Pump, io: KeepIo) {
    && (WatchdogOn(p.regs) || (p.keepalivePending && p.active && io.wdtOk))
    && !(KeepHandsBack(p, io) && io.restore.wdtOk)
  }

  predicate WorkStrands(p: Pump, io: WorkIo) {
    var charge, watchdog := HeldCharge(p, io.keep), HeldWatchdog(p, io.keep);
    if p.active && !KeepHandsBack(p, io.keep) then
      TickStops(p, io.tick) && Loses(charge, watchdog, io.tick.restore)
    else if CanStart(io.gate) && Reaches(io.start) then
      StartStrands(charge, watchdog, io.start)
    else
      KeepHandsBack(p, io.keep) && Loses(ChargeOn(p.regs), WatchdogOn(p.regs) || io.keep.wdtOk, io.keep.restore)
  }

  // The event ends in a hand-back that loses the write of a bit that is on.
  predicate Strands(p: Pump, e: Event) {
    match e
    case DoWork(io) => WorkStrands(p, io)
    case DoSuspend(capable, _, restore) =>
      p.active && !capable && Loses(ChargeOn(p.regs), WatchdogOn(p.regs), restore)
    case AlarmFires => false
    case PumpTrips => false
  }

  // The bits before and after a hand-back.
  predicate HandedBack(a: Regs, b: Regs, io: RestoreIo) {
    && (ChargeOn(b) <==> ChargeOn(a) && !io.modeOk)
    && (WatchdogOn(b) <==> WatchdogOn(a) && !io.wdtOk)
  }

  lemma RestoreHandsBack(a: Regs, p: Pump, io: RestoreIo)
    requires Reg(a, CNTL5) == Reg(p.regs, CNTL5) && Reg(a, CNTL1) == Reg(p.regs, CNTL1)
    ensures HandedBack(a, Restore(p, io).regs, io)
  {
    hide Restore;
    RestoreEnds(p, io);
  }

  lemma TickEnds(p: Pump, io: TickIo)
    requires Sane(p) && p.active && !Tick(p, io).pump.active
    ensures HandedBack(p.regs, Tick(p, io).pump.regs, io.restore)
  {
    hide Restore, ProgramFreq, ProgramIbus, TickTarget, TickRefresh, Faulty, HandOff, StepIndex, HandedBack, Sane;
    if Faulty(p, io) {
      RestoreHandsBack(p.regs, p, io.restore);
    } else {
      var p1 := p.(cvTicks := if Tapered(io) then p.cvTicks + 1 else 0);
      if HandOff(p, io) {
        RestoreHandsBack(p.regs, p1, io.restore);
      } else {
        LimitStepEnds(p, p1, io);
      }
    }
  }

  // The rest of a tick that regulates, from the frequency on.
  lemma LimitStepEnds(p: Pump, p1: Pump, io: TickIo)
    requires Sane(p) && p.active && !Tick(p, io).pump.active && !Faulty(p, io) && !HandOff(p, io)
    requires p1 == p.(cvTicks := if Tapered(io) then p.cvTicks + 1 else 0)
    ensures HandedBack(p.regs, Tick(p, io).pump.regs, io.restore)
  {
    hide Restore, ProgramFreq, ProgramIbus, TickTarget, TickRefresh, Faulty, HandOff, StepIndex, HandedBack;
    var step := StepIndex(io.packUv / 1000);
    var p2 := ProgramFreq(p1, io).(step := step);
    FreqKeeps(p1, io);
    ProgramKeeps(p2, io.ibusKnob, step, io.ibusOk);
    var (p3, ok) := ProgramIbus(p2, io.ibusKnob, step, io.ibusOk);
    FaultBounds(p, io);
    if ok {
      TargetKeeps(p3, io, step);
      RefreshEnds(p.regs, TickTarget(p3, io, step), io);
    } else {
      RestoreHandsBack(p.regs, p3, io.restore);
    }
  }

  lemma RefreshEnds(a: Regs, p: Pump, io: TickIo)
    requires p.active && p.targetMv > 0 && !TickRefresh(p, io).pump.active
    requires Reg(a, CNTL5) == Reg(p.regs, CNTL5) && Reg(a, CNTL1) == Reg(p.regs, CNTL1)
    ensures HandedBack(a, TickRefresh(p, io).pump.regs, io.restore)
  {
    hide Restore, RequestMa, SetWatchdog, HandedBack;
    RestoreHandsBack(a, p.(ppsTicks := p.ppsTicks + 1), io.restore);
    RestoreHandsBack(a, p.(ppsTicks := 0), io.restore);
    RestoreHandsBack(a, p.(ppsTicks := 0, targetMa := RequestMa(io.retryKnob, io.retrySrcMax, p.targetMv)), io.restore);
  }

  // A tick goes on exactly past all its guards.
  lemma TickStopsExactly(p: Pump, io: TickIo)
    requires p.active
    ensures Tick(p, io).pump.active <==> !TickStops(p, io)
  {
    InOrderExactly(p, io);
    hide Restore, TickTarget, TickRefresh, Faulty, HandOff, StepIndex, IbusLimit, PickFreq, InOrder;
    var p1 := p.(cvTicks := if Tapered(io) then p.cvTicks + 1 else 0);
    RestoreParks(p, io.restore);
    RestoreParks(p1, io.restore);
    if !Faulty(p, io) && !HandOff(p, io) {
      ReadingsGood(p, io);
      var step := StepIndex(io.packUv / 1000);
      var (p3, ok) := ProgramIbus(ProgramFreq(p1, io).(step := step), io.ibusKnob, step, io.ibusOk);
      RestoreParks(p3, io.restore);
      if ok {
        TargetOnly(p3, io, step);
        RefreshStops(TickTarget(p3, io, step), io);
      }
    }
  }

  lemma TargetOnly(p: Pump, io: TickIo, step: nat)
    requires step < 3 && io.packUv >= 0
    ensures var q := TickTarget(p, io, step); q.active == p.active && q.ppsTicks == p.ppsTicks
  {
  }

  lemma RefreshStops(p: Pump, io: TickIo)
    requires p.active && p.targetMv > 0
    ensures TickRefresh(p, io).pump.active
       <==> io.wdtOk && (p.ppsTicks + 1 < 2 || io.refreshOk || io.retryOk)
  {
    hide Restore, RequestMa, SetWatchdog;
    RestoreParks(p.(ppsTicks := p.ppsTicks + 1), io.restore);
    RestoreParks(p.(ppsTicks := 0), io.restore);
    RestoreParks(p.(ppsTicks := 0, targetMa := RequestMa(io.retryKnob, io.retrySrcMax, p.targetMv)), io.restore);
  }

  lemma KeepaliveEnds(p: Pump, io: KeepIo)
    ensures var q := Keepalive(p, io).pump;
      && (q.active <==> p.active && !KeepHandsBack(p, io))
      && (ChargeOn(q.regs) <==> HeldCharge(p, io))
      && (WatchdogOn(q.regs) <==> HeldWatchdog(p, io))
      && (q.active ==> q == p.(keepalivePending := false, regs := q.regs))
  {
    hide Restore, ChargeOn, WatchdogOn, SetWatchdog;
    var p1 := p.(keepalivePending := false, regs := if io.wdtOk then SetWatchdog(p.regs, true) else p.regs);
    WatchdogSet(p.regs, true);
    SameCharge(p.regs, SetWatchdog(p.regs, true));
    RestoreEnds(p1, io.restore);
    RestoreParks(p1, io.restore);
  }

  lemma StopsSame(p: Pump, q: Pump, io: TickIo)
    requires q == p.(keepalivePending := false, regs := q.regs) && ChargeOn(q.regs) == ChargeOn(p.regs)
    ensures TickStops(q, io) <==> TickStops(p, io)
  {
    hide IbusLimit, StepIndex;
  }

  lemma {:induction false} WrittenLeaves(regs: Regs, writes: seq<(nat, nat)>, a: nat)
    requires forall i :: 0 <= i < |writes| ==> writes[i].0 != a
    ensures Reg(Written(regs, writes), a) == Reg(regs, a)
  {
    if writes != [] {
      WrittenLeaves(regs, writes[..|writes| - 1], a);
    }
  }

  lemma {:induction false} WrittenFirst(regs: Regs, writes: seq<(nat, nat)>, a: nat)
    requires writes != [] && writes[0].0 == a && forall i :: 1 <= i < |writes| ==> writes[i].0 != a
    ensures Reg(Written(regs, writes), a) == writes[0].1
  {
    if |writes| > 1 {
      WrittenFirst(regs, writes[..|writes| - 1], a);
    }
  }

  // The initialisation leaves the charge bit alone; its reset stops the watchdog.
  lemma InitBits(regs: Regs, io: StartIo)
    ensures ChargeOn(InitRegs(regs, io)) == ChargeOn(regs)
    ensures WatchdogOn(InitRegs(regs, io)) == (!io.resetOk && WatchdogOn(regs))
  {
    var n := Min(io.initWrites, |HW_INIT|);
    var writes := HW_INIT[..n];
    if io.resetOk {
      WrittenLeaves(regs[CNTL1 := 0x00], writes, CNTL5);
      if n > 0 {
        WrittenFirst(regs[CNTL1 := 0x00], writes, CNTL1);
      } else {
        WrittenLeaves(regs[CNTL1 := 0x00], writes, CNTL1);
      }
    }
  }

  lemma PumpEnds(p: Pump, io: StartIo, step: nat, mv: int, ma: int)
    requires io.packUv >= 0 && InitOk(io) && io.ibusOk && !p.active
    ensures var q := StartPump(p, io, step, mv, ma).pump;
      && (q.active <==> Completes(io, mv))
      && (!q.active ==>
            && (ChargeOn(q.regs) <==> (ChargeOn(p.regs) || Charges(io, mv)) && !io.restore.modeOk)
            && (WatchdogOn(q.regs) <==> (WatchdogOn(p.regs) || (Charges(io, mv) && io.wdtOk)) && !io.restore.wdtOk))
  {
    ChipReadyExactly(io);
    BusSettlesExactly(io.busMv, mv - 700, 0);
    hide Restore, ChargeOn, WatchdogOn, SetMode, SetWatchdog, InitOk, Settles, ChipReady, BusSettles;
    var on := p.(regs := SetMode(p.regs, true));
    var guarded := on.(regs := SetWatchdog(on.regs, true));
    ModeSet(p.regs, true);
    SameWatchdog(p.regs, on.regs);
    WatchdogSet(on.regs, true);
    SameCharge(on.regs, guarded.regs);
    RestoreEnds(p, io.restore);
    RestoreEnds(on, io.restore);
    RestoreEnds(guarded, io.restore);
  }

  lemma HwEnds(p: Pump, io: StartIo, step: nat, mv: int, ma: int)
    requires step < 3 && io.packUv >= 0 && !p.active
    ensures var q := StartHw(p, io, step, mv, ma).pump;
      && (q.active <==> Completes(io, mv))
      && (!q.active ==>
            && (ChargeOn(q.regs) <==> (ChargeOn(p.regs) || Charges(io, mv)) && !io.restore.modeOk)
            && (WatchdogOn(q.regs) <==>
                  ((!io.resetOk && WatchdogOn(p.regs)) || (Charges(io, mv) && io.wdtOk)) && !io.restore.wdtOk))
  {
    ChipReadyExactly(io);
    hide Restore, ChargeOn, WatchdogOn, StartPump, InitRegs, VbusPok, IbusLimit, BusSettles, ChipReady, InitOk;
    InitBits(p.regs, io);
    var p1 := p.(regs := InitRegs(p.regs, io));
    RestoreEnds(p1, io.restore);
    if InitOk(io) {
      var p2 := p1.(freqKhz := 850, progIbusMa := 0);
      ProgramKeeps(p2, io.ibusKnob, step, io.ibusOk);
      var (p3, ok) := ProgramIbus(p2, io.ibusKnob, step, io.ibusOk);
      assert ok == io.ibusOk;
      SameCharge(p2.regs, p3.regs);
      SameWatchdog(p2.regs, p3.regs);
      RestoreEnds(p3, io.restore);
      if ok { PumpEnds(p3, io, step, mv, ma); }
    }
  }

  lemma WorkEnds(p: Pump, io: WorkIo)
    requires Sane(p) && Quiet(p)
    ensures Quiet(Work(p, io).pump) <==> !WorkStrands(p, io)
  {
    CanStartExactly(io.gate);
    hide Keepalive, Tick, StartHw, Eligible, ChargeOn, WatchdogOn, Completes, Charges, KeepHandsBack, TickStops;
    hide CanStart;
    hide StepIndex, TargetMv, RequestMa;
    KeepaliveKeeps(p, io.keep);
    KeepaliveEnds(p, io.keep);
    var kept := Keepalive(p, io.keep).pump;
    if kept.active {
      TickStopsExactly(kept, io.tick);
      StopsSame(p, kept, io.tick);
      if !Tick(kept, io.tick).pump.active { TickEnds(kept, io.tick); }
    } else {
      OnlyActiveHandsBack(p, io.keep);
      if Eligible(io.gate) && Reaches(io.start) {
        var s := io.start;
        var mv := TargetMv(s.packUv);
        HwEnds(kept.(direct := true), s, StepIndex(s.packUv / 1000), mv, RequestMa(s.opKnob, s.srcMax, mv));
      }
    }
  }

  lemma ParkedKeeps(p: Pump, io: KeepIo)
    requires !p.active
    ensures Keepalive(p, io) == Outcome(p.(keepalivePending := false), [], false) && !KeepHandsBack(p, io)
  {
  }

  lemma OnlyActiveHandsBack(p: Pump, io: KeepIo)
    ensures KeepHandsBack(p, io) ==> p.active && p.keepalivePending
  {
  }

  // Exactly which events leave an inactive driver over a running pump or watchdog.
  lemma StrandsExactly(p: Pump, e: Event)
    requires Sane(p) && Quiet(p)
    ensures Quiet(After(p, e).pump) <==> !Strands(p, e)
  {
    hide Work, WorkStrands, Restore;
    match e
    case DoWork(io) => WorkEnds(p, io);
    case DoSuspend(capable, wdtOk, restore) => RestoreEnds(p, restore);
    case AlarmFires =>
    case PumpTrips => TripEnds(p);
  }

  lemma TripEnds(p: Pump)
    requires Quiet(p)
    ensures Quiet(After(p, PumpTrips).pump)
  {
    ModeSet(p.regs, false);
    SameWatchdog(p.regs, SetMode(p.regs, false));
  }

  // Over every run: the pump and its watchdog are off at every moment the driver
  // is inactive exactly if no event strands them.
  lemma OffWhenInactiveExactly(p: Pump, events: seq<Event>)
    requires Idle(p)
    ensures (forall k :: 0 <= k <= |events| ==> Quiet(RunState(p, events[..k])))
       <==> (forall k :: 0 <= k < |events| ==> !Strands(RunState(p, events[..k]), events[k]))
  {
    hide After, Strands, Quiet;
    if forall k :: 0 <= k <= |events| ==> Quiet(RunState(p, events[..k])) {
      forall k | 0 <= k < |events| ensures !Strands(RunState(p, events[..k]), events[k]) {
        assert Quiet(RunState(p, events[..k]));
        NextQuiet(p, events, k);
        assert Quiet(RunState(p, events[..k + 1]));
      }
    }
    if forall k :: 0 <= k < |events| ==> !Strands(RunState(p, events[..k]), events[k]) {
      forall k | 0 <= k <= |events| ensures Quiet(RunState(p, events[..k])) {
        QuietUpTo(p, events, k);
      }
    }
  }

  lemma NextQuiet(p: Pump, events: seq<Event>, k: nat)
    requires Idle(p) && k < |events| && Quiet(RunState(p, events[..k]))
    ensures Quiet(RunState(p, events[..k + 1])) <==> !Strands(RunState(p, events[..k]), events[k])
  {
    hide After, Strands, Quiet;
    assert events[..k + 1][..k] == events[..k];
    IdleIsSane(p);
    RunKeeps(p, events[..k]);
    StrandsExactly(RunState(p, events[..k]), events[k]);
  }

  lemma IdleIsSane(p: Pump)
    requires Idle(p)
    ensures Sane(p) && Quiet(p)
  {
  }

  lemma {:induction false} QuietUpTo(p: Pump, events: seq<Event>, k: nat)
    requires Idle(p) && k <= |events|
    requires forall i :: 0 <= i < |events| ==> !Strands(RunState(p, events[..i]), events[i])
    ensures Quiet(RunState(p, events[..k]))
  {
    hide After, Strands, Quiet;
    if k == 0 {
      IdleIsSane(p);
    } else {
      QuietUpTo(p, events, k - 1);
      NextQuiet(p, events, k - 1);
    }
  }

  // A start in order after an eligible 3.7 V, with the pump's own reading at packUv.
  function StartAt(packUv: int): WorkIo {
    var restore := RestoreIo(true, true, true);
    WorkIo(KeepIo(250, 300, true, true, restore), GateIo(2, true, true, 50, 300, 3700000),
           StartIo(packUv, 4500, 0, true, true, 14, true, 0, true, true, [10000], true, true, 0x20, restore),
           TickIo(50, 300, 3700000, true, 0x20, 9000, 4000, 3700, 400, true, 0, true, 0, 4500, 0, true, 4500, 0, true,
                  true, restore))
  }

  // From any idle state: a start, then a suspend without a wake clock whose mode
  // write is lost. The driver is inactive, the pump runs on.
  lemma LostRestoreLeavesPumpOn(p: Pump)
    requires Idle(p)
    ensures var q := RunState(p, [DoWork(StartAt(3700000)), DoSuspend(false, true, RestoreIo(false, true, true))]);
      !q.active && !q.direct && ChargeOn(q.regs)
  {
    hide Tick, StartHw, ChargeOn, WatchdogOn, TargetMv, StepIndex, RequestMa, Restore;
    var first, second := DoWork(StartAt(3700000)), DoSuspend(false, true, RestoreIo(false, true, true));
    GoodStartRuns(p);
    RunTwo(p, first, second);
    RestoreEnds(Work(p, StartAt(3700000)).pump, RestoreIo(false, true, true));
  }

  lemma RunTwo(p: Pump, a: Event, b: Event)
    ensures RunState(p, [a, b]) == After(After(p, a).pump, b).pump
  {
    hide After;
    var one: seq<Event> := [a];
    assert one[..0] == [] && RunState(p, one[..0]) == p;
    assert RunState(p, one) == After(p, a).pump;
    assert [a, b][..1] == one;
  }

  lemma GoodStartRuns(p: Pump)
    requires Idle(p)
    ensures var q := Work(p, StartAt(3700000)).pump; q.active && ChargeOn(q.regs)
  {
    assert TargetMv(3700000) == 8500;
    StartRuns(p, 3700000);
  }

  // Any reading whose Request the bus of 10 V meets.
  lemma StartRuns(p: Pump, packUv: int)
    requires Idle(p) && packUv >= 3400 * 1000
    ensures var o := Work(p, StartAt(packUv));
      var mv := TargetMv(packUv);
      && o.pump.active && !o.pump.keepalivePending && ChargeOn(o.pump.regs)
      && o.pump.ppsTicks == 0 && o.pump.cvTicks == 0
      && o.pump.targetMv == mv && o.pump.packUv == packUv && o.pump.lastVbusMv == 0
      && o.requests == [Request(mv, RequestMa(4500, 0, mv), packUv)]
  {
    hide Tick, StartHw, ChargeOn, WatchdogOn, StepIndex, RequestMa, Keepalive, TargetMv;
    var io := StartAt(packUv);
    var mv := TargetMv(packUv);
    ParkedKeeps(p, io.keep);
    var kept := Keepalive(p, io.keep).pump;
    assert io.start.busMv[0] >= mv - 700;
    assert BusSettles(io.start.busMv, mv - 700, 0);
    var step, ma := StepIndex(packUv / 1000), RequestMa(4500, 0, mv);
    HwEnds(kept.(direct := true), io.start, step, mv, ma);
    HwRecord(kept.(direct := true), io.start, step, mv, ma);
    StartNeedsReadyBus(p, io);
  }

  // The record and the Request of a start that comes up.
  lemma HwRecord(p: Pump, io: StartIo, step: nat, mv: int, ma: int)
    requires step < 3 && io.packUv >= 0 && !p.active && Completes(io, mv)
    ensures var o := StartHw(p, io, step, mv, ma);
      && o.requests == [Request(mv, ma, io.packUv)]
      && o.pump.targetMv == mv && o.pump.targetMa == ma && o.pump.packUv == io.packUv && o.pump.step == step
      && o.pump.ppsTicks == 0 && o.pump.cvTicks == 0 && o.pump.satTicks == 0 && o.pump.lastVbusMv == 0
      && o.pump.keepalivePending == p.keepalivePending
  {
    ChipReadyExactly(io);
    BusSettlesExactly(io.busMv, mv - 700, 0);
    hide InitRegs, Settles, IbusLimit, InitOk, SetMode, SetWatchdog, ChipReady, BusSettles;
  }

  /** The Requests. */

  predicate InWindow(mv: int, packUv: nat) {
    var v := packUv / 1000;
    2 * v + 1100 <= mv <= Min(2 * v + 2000, 10500)
  }

  predicate Sound(r: Request) {
    InWindow(r.mv, r.packUv) && r.mv * r.ma >= 15000000 && r.ma <= 5000
  }

  predicate Aimed(p: Pump) {
    p.active ==> Sound(Request(p.targetMv, p.targetMa, p.packUv))
  }

  // Enough current for 15 W at any voltage, and never more than 5 A from 3 V up.
  lemma RequestPower(opKnob: nat, srcMax: int, mv: int)
    requires mv >= 3000
    ensures var ma := RequestMa(opKnob, srcMax, mv); mv * ma >= 15000000 && ma <= 5000
  {
    var need := CeilDiv(15000000, mv);
    CeilDivCovers(15000000, mv);
    var floorMa := FloorMa(mv);
    assert floorMa == (need + 49) / 50 * 50;
    assert need <= floorMa;
    var ma := RequestMa(opKnob, srcMax, mv);
    assert floorMa <= ma;
    MulMonotone(mv, need, ma);
    assert need <= 5000 by {
      if need > 5000 { MulMonotone(mv, 5000, need - 1); }
    }
  }

  lemma CeilDivCovers(n: nat, d: nat)
    requires d > 0
    ensures d * CeilDiv(n, d) >= n && (CeilDiv(n, d) > 0 ==> d * (CeilDiv(n, d) - 1) < n)
  {
    var q := (n + d - 1) / d;
    assert (n + d - 1) == d * q + (n + d - 1) % d;
    assert d * (q - 1) == d * q - d;
  }

  lemma MulMonotone(m: nat, a: int, b: int)
    requires a <= b
    ensures m * a <= m * b
  {
  }

  // From 3.4 V the starting voltage is in the window exactly up to 4.7 V: above
  // that the 10.5 V cap leaves less than the initial headroom.
  lemma StartWindow(packUv: nat)
    requires packUv >= 3400 * 1000
    ensures InWindow(TargetMv(packUv), packUv) <==> packUv / 1000 <= 4700
  {
  }

  // Where floor and ceiling cross, below 3.1 V, only an aim already at the
  // ceiling survives the clamp.
  lemma TickWindow(mv: int, packUv: nat)
    requires packUv / 1000 <= 4700
    ensures InWindow(Clamp(mv, TargetMv(packUv), CeilMv(packUv)), packUv)
       <==> packUv / 1000 >= 3100 || mv >= CeilMv(packUv)
  {
  }

  lemma SoundStart(opKnob: nat, srcMax: int, packUv: nat)
    requires packUv >= 3400 * 1000
    ensures var mv := TargetMv(packUv);
      Sound(Request(mv, RequestMa(opKnob, srcMax, mv), packUv)) <==> packUv < 4701 * 1000
  {
    StartWindow(packUv);
    RequestPower(opKnob, srcMax, TargetMv(packUv));
  }

  // Below 3 V no current up to 5 A gives 15 W.
  lemma LowVoltage(mv: int, ma: int)
    requires 0 < mv < 3000 && ma <= 5000
    ensures mv * ma < 15000000
  {
    assert mv * ma <= mv * 5000;
  }

  // The guards under which a tick sets a target that is sent or kept.
  predicate TickAims(p: Pump, io: TickIo) {
    && InOrder(p, io)
    && (IbusLimit(io.ibusKnob, StepIndex(io.packUv / 1000)) == p.progIbusMa || io.ibusOk)
    && (p.ppsTicks + 1 >= 2 || io.wdtOk)
  }

  // The loop's voltage before the clamp.
  function LoopMv(p: Pump, io: TickIo): int
    requires io.packUv >= 0
  {
    Regulated(p, io, TargetIbus(io.aimKnob, StepIndex(io.packUv / 1000)), TargetMv(io.packUv), CeilMv(io.packUv)).0
  }

  // From 3.1 V always; below, down to 0.5 V, while the loop pushes against the ceiling.
  predicate TickReadable(p: Pump, io: TickIo) {
    TickAims(p, io) ==>
      var v := io.packUv / 1000;
      v >= 3100 || (v >= 500 && io.packUv >= 0 && LoopMv(p, io) >= CeilMv(io.packUv))
  }

  predicate StartReadable(io: StartIo) {
    Reaches(io) && ChipReady(io) && io.ibusOk ==> io.packUv < 4701 * 1000
  }

  predicate Readable(p: Pump, e: Event) {
    e.DoWork? ==>
      if p.active && !KeepHandsBack(p, e.io.keep) then TickReadable(p, e.io.tick)
      else CanStart(e.io.gate) ==> StartReadable(e.io.start)
  }

  predicate AllSound(requests: seq<Request>) {
    forall i :: 0 <= i < |requests| ==> Sound(requests[i])
  }

  lemma AllSoundJoin(a: seq<Request>, b: seq<Request>)
    ensures AllSound(a + b) <==> AllSound(a) && AllSound(b)
  {
    hide Sound;
    var all := a + b;
    assert forall i :: 0 <= i < |a| ==> all[i] == a[i];
    assert forall i :: 0 <= i < |b| ==> all[|a| + i] == b[i];
  }

  lemma StartAsks(p: Pump, io: StartIo)
    requires !p.active
    ensures var o := Start(p, io); AllSound(o.requests) && Aimed(o.pump) <==> StartReadable(io)
  {
    ChipReadyExactly(io);
    hide Sound, RequestMa, TargetMv, StartHw, InitOk, ChipReady;
    if Reaches(io) {
      var mv := TargetMv(io.packUv);
      SoundStart(io.opKnob, io.srcMax, io.packUv);
      StartHwAsks(p.(direct := true), io, StepIndex(io.packUv / 1000), mv, RequestMa(io.opKnob, io.srcMax, mv));
    }
  }

  lemma StartHwAsks(p: Pump, io: StartIo, step: nat, mv: int, ma: int)
    requires step < 3 && io.packUv >= 0 && !p.active
    ensures var o := StartHw(p, io, step, mv, ma);
      AllSound(o.requests) && Aimed(o.pump) <==> (InitOk(io) && io.ibusOk ==> Sound(Request(mv, ma, io.packUv)))
  {
    hide Sound, SetMode, SetWatchdog, InitRegs, Settles, VbusPok, InitOk, IbusLimit, StartPump;
    if InitOk(io) && io.ibusOk {
      var p2 := p.(regs := InitRegs(p.regs, io), freqKhz := 850, progIbusMa := 0);
      StartPumpAsks(ProgramIbus(p2, io.ibusKnob, step, true).0, io, step, mv, ma);
    }
  }

  lemma StartPumpAsks(p: Pump, io: StartIo, step: nat, mv: int, ma: int)
    requires io.packUv >= 0
    ensures var o := StartPump(p, io, step, mv, ma);
      AllSound(o.requests) && Aimed(o.pump) <==> Sound(Request(mv, ma, io.packUv))
  {
    hide Sound, SetMode, SetWatchdog, Settles, VbusPok;
    var asked := StartPump(p, io, step, mv, ma).requests;
    assert asked[0] == Request(mv, ma, io.packUv);
  }

  lemma TickAsks(p: Pump, io: TickIo)
    requires p.active
    ensures var o := Tick(p, io); AllSound(o.requests) && Aimed(o.pump) <==> TickReadable(p, io)
  {
    InOrderExactly(p, io);
    hide Sound, RequestMa, TickTarget, TickRefresh, Faulty, HandOff, StepIndex, IbusLimit, PickFreq, LoopMv, CeilMv;
    hide InOrder;
    if !Faulty(p, io) && !HandOff(p, io) {
      ReadingsGood(p, io);
      var p1 := p.(cvTicks := if Tapered(io) then p.cvTicks + 1 else 0);
      var step := StepIndex(io.packUv / 1000);
      var (p3, ok) := ProgramIbus(ProgramFreq(p1, io).(step := step), io.ibusKnob, step, io.ibusOk);
      if ok {
        FaultCeiling(p, io);
        SameLoop(p, p3, io);
        TargetSound(p3, io, step);
        RefreshAsks(TickTarget(p3, io, step), io);
      }
    }
  }

  lemma FaultCeiling(p: Pump, io: TickIo)
    requires !Faulty(p, io) && !HandOff(p, io)
    ensures 0 <= io.packUv < 4430 * 1000
  {
  }

  lemma SameLoop(p: Pump, q: Pump, io: TickIo)
    requires io.packUv >= 0
    requires q.targetMv == p.targetMv && q.lastVbusMv == p.lastVbusMv && q.satTicks == p.satTicks
    ensures LoopMv(q, io) == LoopMv(p, io)
  {
  }

  lemma TargetSound(p: Pump, io: TickIo, step: nat)
    requires 0 <= io.packUv < 4430 * 1000 && step == StepIndex(io.packUv / 1000)
    ensures var q := TickTarget(p, io, step);
      var v := io.packUv / 1000;
      && q.active == p.active && q.ppsTicks == p.ppsTicks && q.targetMv > 0
      && (Sound(Request(q.targetMv, q.targetMa, q.packUv))
          <==> v >= 3100 || (v >= 500 && LoopMv(p, io) >= CeilMv(io.packUv)))
  {
    hide RequestMa, Regulated, TargetIbus, StepIndex;
    var floorMv, ceilMv := TargetMv(io.packUv), CeilMv(io.packUv);
    var mv := LoopMv(p, io);
    var clamped := Clamp(mv, floorMv, ceilMv);
    TickWindow(mv, io.packUv);
    FloorPositive(mv, io.packUv);
    if clamped >= 3000 {
      RequestPower(io.opKnob, io.srcMax, clamped);
    } else if RequestMa(io.opKnob, io.srcMax, clamped) <= 5000 {
      LowVoltage(clamped, RequestMa(io.opKnob, io.srcMax, clamped));
    }
  }

  lemma RefreshAsks(p: Pump, io: TickIo)
    requires p.active && p.targetMv > 0
    ensures var o := TickRefresh(p, io);
      AllSound(o.requests) && Aimed(o.pump)
      <==> (p.ppsTicks + 1 >= 2 || io.wdtOk ==> Sound(Request(p.targetMv, p.targetMa, p.packUv)))
  {
    hide RequestMa, InWindow, SetWatchdog;
    var first := Request(p.targetMv, p.targetMa, p.packUv);
    var o := TickRefresh(p, io);
    if p.ppsTicks + 1 >= 2 { assert o.requests[0] == first; }
    if Sound(first) {
      if p.targetMv < 3000 { LowVoltage(p.targetMv, p.targetMa); }
      RequestPower(io.retryKnob, io.retrySrcMax, p.targetMv);
    }
  }

  lemma KeepaliveAsks(p: Pump, io: KeepIo)
    requires Aimed(p)
    ensures var o := Keepalive(p, io); AllSound(o.requests) && Aimed(o.pump)
  {
  }

  lemma ReadableSame(p: Pump, q: Pump, io: TickIo)
    requires q == p.(keepalivePending := false, regs := q.regs) && ChargeOn(q.regs) == ChargeOn(p.regs)
    ensures TickReadable(q, io) <==> TickReadable(p, io)
  {
    hide IbusLimit, StepIndex, TargetIbus, TargetMv, CeilMv;
  }

  // Which readings keep one event's Requests, and the target it leaves, in the window.
  lemma EventAsks(p: Pump, e: Event)
    requires Aimed(p)
    ensures AllSound(After(p, e).requests) && Aimed(After(p, e).pump) <==> Readable(p, e)
  {
    hide Sound, Tick, Start, Keepalive, Eligible, KeepHandsBack, TickReadable, StartReadable, AllSound, ChargeOn;
    hide CanStart;
    if e.DoWork? {
      CanStartExactly(e.io.gate);
      KeepaliveAsks(p, e.io.keep);
      KeepaliveEnds(p, e.io.keep);
      var kept := Keepalive(p, e.io.keep);
      if kept.pump.active {
        TickAsks(kept.pump, e.io.tick);
        ReadableSame(p, kept.pump, e.io.tick);
        AllSoundJoin(kept.requests, Tick(kept.pump, e.io.tick).requests);
      } else if Eligible(e.io.gate) {
        StartAsks(kept.pump, e.io.start);
        AllSoundJoin(kept.requests, Start(kept.pump, e.io.start).requests);
      }
    } else {
      NothingAsked(p, e);
    }
  }

  lemma NothingAsked(p: Pump, e: Event)
    requires Aimed(p) && !e.DoWork?
    ensures AllSound(After(p, e).requests) && Aimed(After(p, e).pump)
  {
    hide Sound;
  }

  predicate ReadableRun(p: Pump, events: seq<Event>) {
    forall i :: 0 <= i < |events| ==> Readable(RunState(p, events[..i]), events[i])
  }

  predicate AimedRun(p: Pump, events: seq<Event>) {
    forall k :: 0 <= k <= |events| ==> Aimed(RunState(p, events[..k]))
  }

  // Over every run, whatever fails: all Requests (the initial one, the refresh, its
  // retry and the keepalive) and every target held for a keepalive are in the window
  // exactly if the readings behind them are.
  lemma {:induction false} WindowKeptExactly(p: Pump, events: seq<Event>)
    requires !p.active
    ensures AllSound(RunRequests(p, events)) && AimedRun(p, events) <==> ReadableRun(p, events)
  {
    hide After, Aimed, Readable, AllSound, RunState;
    if events == [] {
      NoneAsked(p);
    } else {
      var front, e := events[..|events| - 1], events[|events| - 1];
      assert forall i :: 0 <= i <= |front| ==> front[..i] == events[..i];
      assert events[..|events|] == events && front[..|front|] == front;
      WindowKeptExactly(p, front);
      RunStep(p, events);
      AllSoundJoin(RunRequests(p, front), After(RunState(p, front), e).requests);
      if Aimed(RunState(p, front)) { EventAsks(RunState(p, front), e); }
    }
  }

  lemma NoneAsked(p: Pump)
    requires !p.active
    ensures AllSound(RunRequests(p, [])) && AimedRun(p, [])
  {
  }

  lemma RunStep(p: Pump, events: seq<Event>)
    requires events != []
    ensures var front, e := events[..|events| - 1], events[|events| - 1];
      RunState(p, events) == After(RunState(p, front), e).pump
  {
    hide After;
  }

  // One Request of a run with such readings.
  lemma RequestsStayInWindow(p: Pump, events: seq<Event>, r: Request)
    requires Idle(p) && ReadableRun(p, events) && r in RunRequests(p, events)
    ensures var v := r.packUv / 1000;
      && 2 * v + 1100 <= r.mv <= 2 * v + 2000 && r.mv <= 10500
      && r.mv * r.ma >= 15000000 && r.ma <= 5000
  {
    hide RunRequests, ReadableRun;
    WindowKeptExactly(p, events);
  }

  // The gate sees an eligible 3.7 V, the start's own reading is 4701 mV: the Request
  // it sends leaves less than the initial headroom.
  lemma HighReadingLeavesWindow(p: Pump)
    requires Idle(p)
    ensures exists r :: r in RunRequests(p, [DoWork(StartAt(4701000))]) && r.packUv == 4701000 && r.mv == 10500
              && r.mv < 2 * 4701 + 1100
  {
    hide Work, RequestMa;
    var e := DoWork(StartAt(4701000));
    var one: seq<Event> := [e];
    assert one[..0] == [] && RunState(p, []) == p && RunRequests(p, []) == [];
    StartRuns(p, 4701000);
    assert TargetMv(4701000) == 10500;
    assert RunRequests(p, one) == [] + After(p, e).requests;
    assert Request(10500, RequestMa(4500, 0, 10500), 4701000) in RunRequests(p, one);
  }

  // A tick at 3.099 V with too much current.
  function LowTick(): WorkIo {
    StartAt(3500000).(tick := TickIo(50, 300, 3099000, true, 0x20, 9000, 5000, 3099, 400, true, 0, true, 0, 4500, 0,
                                     true, 4500, 0, true, true, RestoreIo(true, true, true)))
  }

  lemma LowTickAsks(p: Pump)
    requires p.active && !p.keepalivePending && ChargeOn(p.regs) && p.targetMv == 8200 && p.cvTicks == 0
    requires p.ppsTicks < 2
    ensures var o := Work(p, LowTick());
      && o.pump.active && !o.pump.keepalivePending && ChargeOn(o.pump.regs) && o.pump.targetMv == 8200
      && o.pump.cvTicks == 0 && o.pump.ppsTicks == (p.ppsTicks + 1) % 2
      && (p.ppsTicks == 1 ==> Request(8200, o.pump.targetMa, 3099000) in o.requests)
  {
    hide RequestMa, ChargeOn, SetWatchdog;
    var io := LowTick().tick;
    var step := StepIndex(3099);
    var p1 := p.(cvTicks := 0);
    FreqKeeps(p1, io);
    var p2 := ProgramFreq(p1, io).(step := step);
    var p3 := ProgramIbus(p2, 0, step, true).0;
    SameCharge(p.regs, p3.regs);
    assert TargetMv(3099000) == 8200 && CeilMv(3099000) == 8198 && TargetIbus(0, step) == 4330;
    var q := TickTarget(p3, io, step);
    assert q.targetMv == 8200 && q.packUv == 3099000;
    WatchdogSet(q.regs, true);
    SameCharge(q.regs, SetWatchdog(q.regs, true));
  }

  // Floor and ceiling cross below 3.1 V: two such ticks after a start and the Request
  // lies above the ceiling.
  lemma LowReadingLeavesWindow(p: Pump)
    requires Idle(p)
    ensures var low := DoWork(LowTick());
      exists r :: r in RunRequests(p, [DoWork(StartAt(3500000)), low, low]) && r.packUv == 3099000 && r.mv == 8200
        && r.mv > 2 * 3099 + 2000
  {
    hide Work, RequestMa, ChargeOn, After;
    var first, low := DoWork(StartAt(3500000)), DoWork(LowTick());
    assert TargetMv(3500000) == 8200;
    StartRuns(p, 3500000);
    RunTwo(p, first, low);
    var two: seq<Event> := [first, low];
    var three: seq<Event> := [first, low, low];
    assert three[..2] == two;
    WorkIs(p, StartAt(3500000));
    var a := After(p, first).pump;
    LowTickAsks(a);
    WorkIs(a, LowTick());
    var b := After(a, low).pump;
    LowTickAsks(b);
    WorkIs(b, LowTick());
    assert RunRequests(p, three) == RunRequests(p, two) + After(b, low).requests;
    assert Request(8200, After(b, low).pump.targetMa, 3099000) in RunRequests(p, three);
  }

  lemma WorkIs(p: Pump, io: WorkIo)
    ensures After(p, DoWork(io)) == Work(p, io)
  {
  }

  /** Anti-windup. */

  // The aim is at its ceiling, the current is short and the bus did not sag.
  predicate Pegged(p: Pump, io: TickIo)
    requires io.packUv >= 0
  {
    && io.ibusMa < TargetIbus(io.aimKnob, StepIndex(io.packUv / 1000)) - 200
    && (p.lastVbusMv == 0 || io.vbusMv >= p.lastVbusMv - 300)
    && p.targetMv >= CeilMv(io.packUv)
  }

  function Retarget(p: Pump, io: TickIo): Pump
    requires io.packUv >= 0
  {
    TickTarget(p, io, StepIndex(io.packUv / 1000))
  }

  function Retargets(p: Pump, ios: seq<TickIo>): Pump
    requires forall i :: 0 <= i < |ios| ==> ios[i].packUv >= 0
  {
    if ios == [] then p else Retarget(Retargets(p, ios[..|ios| - 1]), ios[|ios| - 1])
  }

  ghost predicate AlwaysPegged(p: Pump, ios: seq<TickIo>)
    requires forall i :: 0 <= i < |ios| ==> ios[i].packUv >= 0
  {
    forall i :: 0 <= i < |ios| ==> Pegged(Retargets(p, ios[..i]), ios[i])
  }

  lemma PeggedTickCounts(p: Pump, io: TickIo)
    requires io.packUv >= 0 && Pegged(p, io) && p.satTicks < 7
    ensures Retarget(p, io).satTicks == p.satTicks + 1
  {
    hide CeilMv, TargetMv, RequestMa, StepIndex, TargetIbus;
  }

  lemma {:induction false} PeggedTicksCount(p: Pump, ios: seq<TickIo>)
    requires forall i :: 0 <= i < |ios| ==> ios[i].packUv >= 0
    requires AlwaysPegged(p, ios) && p.satTicks + |ios| < 8
    ensures Retargets(p, ios).satTicks == p.satTicks + |ios|
  {
    hide Pegged, Retarget;
    if ios != [] {
      var last := |ios| - 1;
      assert forall i :: 0 <= i < last ==> ios[..last][..i] == ios[..i];
      PeggedTicksCount(p, ios[..last]);
      PeggedTickCounts(Retargets(p, ios[..last]), ios[last]);
    }
  }

  lemma LastPeggedEases(p: Pump, io: TickIo)
    requires 3100 * 1000 <= io.packUv < 4430 * 1000 && Pegged(p, io) && p.satTicks == 7
    ensures var q := Retarget(p, io);
      q.satTicks == 0 && q.targetMv == Clamp(io.vbusMv + 40, TargetMv(io.packUv), CeilMv(io.packUv))
  {
    hide RequestMa, StepIndex, TargetIbus;
  }

  // Pushing against the ceiling ends: the eighth pegged tick in a row eases the
  // request to just above what the bus really holds.
  lemma EighthPeggedTickEases(p: Pump, ios: seq<TickIo>)
    requires forall i :: 0 <= i < |ios| ==> 3100 * 1000 <= ios[i].packUv < 4430 * 1000
    requires AlwaysPegged(p, ios) && p.satTicks + |ios| == 8 && ios != []
    ensures var q, io := Retargets(p, ios), ios[|ios| - 1];
      q.satTicks == 0 && q.targetMv == Clamp(io.vbusMv + 40, TargetMv(io.packUv), CeilMv(io.packUv))
  {
    hide Retarget, Pegged;
    var last := |ios| - 1;
    assert forall i :: 0 <= i < last ==> ios[..last][..i] == ios[..i];
    PeggedTicksCount(p, ios[..last]);
    LastPeggedEases(Retargets(p, ios[..last]), ios[last]);
  }

  /** What one tick and one start promise. */

  // One pass of the loop, between floor and ceiling: 40 mV down on excess current, to 40
  // above the bus on a sag of more than 300, 40 up on a shortage until the ceiling, and
  // no move on target or while the ceiling is not yet held for eight passes.
  lemma SteersTowardAim(p: Pump, io: TickIo)
    requires 3100 * 1000 <= io.packUv < 4430 * 1000
    ensures
      var q := Retarget(p, io);
      var aim := TargetIbus(io.aimKnob, StepIndex(io.packUv / 1000));
      var low, high := TargetMv(io.packUv), CeilMv(io.packUv);
      var over, short := io.ibusMa - aim > 200, aim - io.ibusMa > 200;
      var sagged := p.lastVbusMv != 0 && p.lastVbusMv - io.vbusMv > 300;
      && low <= high && low <= q.targetMv <= high
      && (over ==> q.targetMv == Within(p.targetMv - 40, low, high))
      && (!over && sagged ==> q.targetMv == Within(io.vbusMv + 40, low, high))
      && (short && !sagged && p.targetMv < high ==> q.targetMv == Within(p.targetMv + 40, low, high))
      && (short && !sagged && p.targetMv >= high ==>
            q.targetMv == if p.satTicks >= 7 then Within(io.vbusMv + 40, low, high) else high)
      && (!over && !short && !sagged ==> q.targetMv == Within(p.targetMv, low, high))
  {
    hide RequestMa, TargetIbus, StepIndex;
  }

  function Within(v: int, low: int, high: int): int { Max(low, Min(v, high)) }

  // What else a pass leaves behind.
  lemma RetargetRecords(p: Pump, io: TickIo)
    requires 0 <= io.packUv < 4430 * 1000
    ensures
      var q := Retarget(p, io);
      var short := TargetIbus(io.aimKnob, StepIndex(io.packUv / 1000)) - io.ibusMa > 200;
      var sagged := p.lastVbusMv != 0 && p.lastVbusMv - io.vbusMv > 300;
      && q.lastVbusMv == io.vbusMv && q.packUv == io.packUv && q.targetMv > 0
      && q.targetMa == RequestMa(io.opKnob, io.srcMax, q.targetMv)
      && q.satTicks == (if short && !sagged && p.targetMv >= CeilMv(io.packUv) && p.satTicks < 7 then p.satTicks + 1
                        else 0)
  {
    hide RequestMa, TargetIbus, StepIndex;
    FloorPositive(LoopMv(p, io), io.packUv);
  }

  lemma HotterSwitchesSlower(die: int, pack: int, hotterDie: int, hotterPack: int)
    requires die <= hotterDie && pack <= hotterPack
    ensures PickFreq(hotterDie, hotterPack) <= PickFreq(die, pack)
  {
  }

  lemma FullerPackAimsLower(knob: nat, packMv: int, fullerMv: int)
    requires packMv <= fullerMv
    ensures TargetIbus(knob, StepIndex(fullerMv)) <= TargetIbus(knob, StepIndex(packMv))
  {
  }

  // A pump comes up exactly for a source and pack in order, after the switching path
  // was opened, the chip set up, the Request accepted and the bus read within 700 mV of
  // it, with the charge bit, the watchdog and power-good.
  lemma StartsExactly(p: Pump, io: WorkIo)
    requires !p.active
    ensures var s := io.start;
      Work(p, io).pump.active
      <==>
      && CanStart(io.gate) && s.packUv >= 3400000 && s.directOk
      && s.resetOk && s.initWrites >= 14 && s.latchesOk && s.ibusOk && s.ppsOk
      && BusSettles(s.busMv, TargetMv(s.packUv) - 700, 0)
      && s.chargeOk && s.wdtOk && s.status3 >= 0 && s.status3 / 32 % 2 == 1
  {
    hide Keepalive, StartHw, Eligible, ChargeOn, WatchdogOn, BusSettles, StepIndex, TargetMv, RequestMa, CanStart;
    CanStartExactly(io.gate);
    ParkedKeeps(p, io.keep);
    var kept := Keepalive(p, io.keep).pump;
    var s := io.start;
    if CanStart(io.gate) && Reaches(s) {
      var mv := TargetMv(s.packUv);
      HwEnds(kept.(direct := true), s, StepIndex(s.packUv / 1000), mv, RequestMa(s.opKnob, s.srcMax, mv));
    }
  }

  // With it, charge bit and watchdog are on.
  lemma StartNeedsReadyBus(p: Pump, io: WorkIo)
    requires !p.active && Work(p, io).pump.active
    ensures ChargeOn(Work(p, io).pump.regs) && WatchdogOn(Work(p, io).pump.regs)
  {
    hide TargetMv, RequestMa, StepIndex, SetMode, SetWatchdog, ProgramIbus, InitRegs, Settles, ChargeOn, WatchdogOn;
    var s := io.start;
    var mv := TargetMv(s.packUv);
    var hw := StartHw(Keepalive(p, io.keep).pump.(direct := true), s, StepIndex(s.packUv / 1000), mv,
                      RequestMa(s.opKnob, s.srcMax, mv));
    assert Work(p, io).pump == hw.pump;
    var p1 := Keepalive(p, io.keep).pump.(direct := true, regs := InitRegs(Keepalive(p, io.keep).pump.regs, s));
    var p2 := ProgramIbus(p1.(freqKhz := 850, progIbusMa := 0), s.ibusKnob, StepIndex(s.packUv / 1000), s.ibusOk).0;
    ModeSet(p2.regs, true);
    WatchdogSet(SetMode(p2.regs, true), true);
    SameCharge(SetMode(p2.regs, true), SetWatchdog(SetMode(p2.regs, true), true));
  }
}
