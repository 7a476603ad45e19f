/**
 * The pump's numbers: what readings it runs with, what it programs and asks for, in
 * the board's own figures.
 */
module Sm5440Limits {
  import opened Numbers
  import opened Sm5440Spec
  import opened Sm5440Safety

  /** Tables. */

  // The step table by battery voltage, with the knob at its default.
  lemma StepTable(packMv: int)
    ensures TargetIbus(0, StepIndex(packMv)) == if packMv < 4130 then 4330 else if packMv < 4250 then 3710 else 2970
  {
  }

  // A pinned aim, read as a signed word.
  lemma PinnedAim(knob: nat, step: nat)
    requires step < 3 && 0 < knob < 0x1_0000_0000
    ensures TargetIbus(knob, step) == if knob >= 0x8000_0000 then 800 else Max(800, Min(knob, 4800))
  {
  }

  lemma LimitMargin(knob: nat, step: nat)
    requires step < 3
    ensures IbusLimit(knob, step) == Min(TargetIbus(knob, step) + 400, 4800)
  {
  }

  // Twice the battery plus 1100 mV, rounded up to 20 mV, from 8.2 to 10.5 V.
  lemma LeastVoltage(packUv: nat)
    ensures var need, mv := 2 * (packUv / 1000) + 1100, TargetMv(packUv);
      && mv % 20 == 0 && 8200 <= mv <= 10500
      && (mv > 8200 ==> mv < need + 20)
      && (mv < 10500 ==> need <= mv)
  {
    var need := 2 * (packUv / 1000) + 1100;
    AlignFacts(need, 20);
    assert CeilDiv(need, 20) * 20 == (need + 19) / 20 * 20;
  }

  // The least multiple of 50 mA that gives 15 W.
  lemma FloorIsLeast(mv: nat)
    requires mv > 0
    ensures FloorMa(mv) % 50 == 0 && FloorMa(mv) > 0
    ensures mv * FloorMa(mv) >= 15000000 && mv * (FloorMa(mv) - 50) < 15000000
  {
    var need := CeilDiv(15000000, mv);
    CeilDivCovers(15000000, mv);
    AlignFacts(need, 50);
    var floorMa := FloorMa(mv);
    assert floorMa == (need + 49) / 50 * 50 && need <= floorMa <= need + 49;
    MulMonotone(mv, need, floorMa);
    assert need > 0;
    MulMonotone(mv, floorMa - 50, need - 1);
  }

  // The knob within 1 to 5 A, no more than the source advertises in steps of 50 mA, but
  // never less than 15 W need.
  lemma RequestIs(opKnob: nat, srcMax: int, mv: nat)
    requires mv > 0 && opKnob < 0x1_0000_0000
    ensures
      var knob := if opKnob >= 0x8000_0000 then 1000 else Max(1000, Min(opKnob, 5000));
      RequestMa(opKnob, srcMax, mv)
      == Max(FloorMa(mv), if srcMax > 0 then Min(knob, srcMax / 50000 * 50) else knob)
  {
    hide FloorMa;
    if srcMax > 0 {
      assert srcMax / 1000 / 50 == srcMax / 50000;
    }
  }

  lemma FrequencyTable(die: int, pack: int)
    ensures PickFreq(die, pack) == if die >= 950 then 450 else if die >= 800 || pack >= 400 then 650 else 850
  {
  }

  /** The record after a tick. */

  predicate FreqHeld(p: Pump) { p.active ==> Reg(p.regs, 0x12) * 50 + 250 == p.freqKhz }

  lemma FreqProgrammed(p: Pump, io: TickIo)
    requires Reg(p.regs, 0x12) * 50 + 250 == p.freqKhz
    ensures var q := ProgramFreq(p, io);
      && q.freqKhz == (if io.freqOk then PickFreq(io.dieTemp, io.packTemp) else p.freqKhz)
      && Reg(q.regs, 0x12) * 50 + 250 == q.freqKhz
  {
  }

  // A tick that goes on: frequency, step, counters, target and Requests.
  lemma TickRecord(p: Pump, io: TickIo)
    requires Sane(p) && p.active && FreqHeld(p) && Tick(p, io).pump.active
    ensures
      var o := Tick(p, io);
      var q, t := o.pump, Retarget(p, io);
      && FreqHeld(q) && q.freqKhz == (if io.freqOk then PickFreq(io.dieTemp, io.packTemp) else p.freqKhz)
      && q.step == StepIndex(io.packUv / 1000) && q.progIbusMa == IbusLimit(io.ibusKnob, q.step)
      && q.cvTicks == (if io.ibusMa < 1000 then p.cvTicks + 1 else 0)
      && q.satTicks == t.satTicks && q.lastVbusMv == io.vbusMv && q.packUv == io.packUv
      && q.targetMv == t.targetMv > 0 && q.ppsTicks == 1 - p.ppsTicks
      && o.requests == (if p.ppsTicks == 0 then []
                        else if io.refreshOk then [Request(q.targetMv, t.targetMa, io.packUv)]
                        else [Request(q.targetMv, t.targetMa, io.packUv), Request(q.targetMv, q.targetMa, io.packUv)])
      && q.targetMa == (if p.ppsTicks == 0 || io.refreshOk then t.targetMa
                        else RequestMa(io.retryKnob, io.retrySrcMax, q.targetMv))
  {
    hide Restore, ProgramFreq, TickTarget, TickRefresh, Faulty, HandOff, StepIndex, IbusLimit, PickFreq, RequestMa;
    RestoreParks(p, io.restore);
    var p1 := p.(cvTicks := if Tapered(io) then p.cvTicks + 1 else 0);
    RestoreParks(p1, io.restore);
    assert !Faulty(p, io) && !HandOff(p, io);
    ReadingsGood(p, io);
    FaultBounds(p, io);
    FreqKeeps(p1, io);
    FreqProgrammed(p1, io);
    var step := StepIndex(io.packUv / 1000);
    var p2 := ProgramFreq(p1, io).(step := step);
    var (p3, ok) := ProgramIbus(p2, io.ibusKnob, step, io.ibusOk);
    RestoreParks(p3, io.restore);
    TargetOnly(p3, io, step);
    SameTarget(p, p3, io);
    RetargetRecords(p, io);
    TargetRest(p3, io, step);
    RefreshRecord(TickTarget(p3, io, step), io);
  }

  lemma SameTarget(p: Pump, q: Pump, io: TickIo)
    requires io.packUv >= 0
    requires q.targetMv == p.targetMv && q.lastVbusMv == p.lastVbusMv && q.satTicks == p.satTicks
    ensures var a, b := Retarget(p, io), Retarget(q, io);
      a.targetMv == b.targetMv && a.satTicks == b.satTicks && a.targetMa == b.targetMa
  {
    hide RequestMa, TargetIbus, StepIndex;
  }

  lemma TargetRest(p: Pump, io: TickIo, step: nat)
    requires step < 3 && io.packUv >= 0
    ensures var q := TickTarget(p, io, step);
      && q.regs == p.regs && q.freqKhz == p.freqKhz && q.step == p.step && q.cvTicks == p.cvTicks
      && q.progIbusMa == p.progIbusMa && q.ppsTicks == p.ppsTicks && q.packUv == io.packUv && q.lastVbusMv == io.vbusMv
  {
    hide RequestMa, TargetIbus;
  }

  lemma RefreshRecord(p: Pump, io: TickIo)
    requires p.targetMv > 0 && p.active && p.ppsTicks < 2 && TickRefresh(p, io).pump.active
    ensures
      var o := TickRefresh(p, io);
      var q := o.pump;
      && q == p.(regs := q.regs, ppsTicks := q.ppsTicks, targetMa := q.targetMa) && q.ppsTicks == 1 - p.ppsTicks
      && (forall a :: a != CNTL1 ==> Reg(q.regs, a) == Reg(p.regs, a))
      && o.requests == (if p.ppsTicks == 0 then []
                        else if io.refreshOk then [Request(p.targetMv, p.targetMa, p.packUv)]
                        else [Request(p.targetMv, p.targetMa, p.packUv), Request(p.targetMv, q.targetMa, p.packUv)])
      && q.targetMa == (if p.ppsTicks == 0 || io.refreshOk then p.targetMa
                        else RequestMa(io.retryKnob, io.retrySrcMax, p.targetMv))
  {
    hide Restore, RequestMa, SetWatchdog;
    WatchdogSet(p.regs, true);
    RestoreParks(p.(ppsTicks := p.ppsTicks + 1), io.restore);
    RestoreParks(p.(ppsTicks := 0), io.restore);
    RestoreParks(p.(ppsTicks := 0, targetMa := RequestMa(io.retryKnob, io.retrySrcMax, p.targetMv)), io.restore);
  }

  /** The registers after a start. */

  lemma {:induction false} WrittenAt(regs: Regs, writes: seq<(nat, nat)>, i: nat)
    requires i < |writes| && forall j :: i < j < |writes| ==> writes[j].0 != writes[i].0
    ensures Reg(Written(regs, writes), writes[i].0) == writes[i].1
    decreases |writes|
  {
    if i < |writes| - 1 {
      WrittenAt(regs, writes[..|writes| - 1], i);
    }
  }

  lemma InitRegister(regs: Regs, io: StartIo, i: nat)
    requires InitOk(io) && i < 14
    ensures Reg(InitRegs(regs, io), HW_INIT[i].0) == HW_INIT[i].1
  {
    assert HW_INIT[..14] == HW_INIT;
    WrittenAt(regs[CNTL1 := 0x00], HW_INIT, i);
  }

  // What the chip's set-up writes, register by register.
  predicate SetUp(regs: Regs) {
    && Reg(regs, 0x0d) == 0xf2 && Reg(regs, 0x0e) == 0xb8 && Reg(regs, 0x0f) == 0xff && Reg(regs, 0x11) == 0x09
    && Reg(regs, 0x13) == 0x07 && Reg(regs, 0x15) == 0x3f && Reg(regs, 0x19) == 0xfe && Reg(regs, 0x1a) == 0x0c
    && Reg(regs, 0x1c) == 0x0b && Reg(regs, 0x1d) == 0xdf
    && 38000 + 125 * Reg(regs, 0x14) == 44000   // the pump's own regulation at 4.4 V
    && Reg(regs, 0x12) * 50 + 250 == 850        // switching frequency in kHz
  }

  lemma InitSetsUp(regs: Regs, io: StartIo)
    requires InitOk(io)
    ensures SetUp(InitRegs(regs, io)) && Reg(InitRegs(regs, io), 0x0c) == 0x40
    ensures Reg(InitRegs(regs, io), 0x16) * 50 == 2950   // the lowest step's aim, in steps of 50 mA
  {
    hide InitRegs, InitOk;
    forall i | 0 <= i < 14 ensures Reg(InitRegs(regs, io), HW_INIT[i].0) == HW_INIT[i].1 {
      InitRegister(regs, io, i);
    }
    var w := HW_INIT;
    assert w[0].0 == 0x0c && w[1].0 == 0x0d && w[2].0 == 0x0e && w[3].0 == 0x0f && w[4].0 == 0x11 && w[5].0 == 0x12
        && w[6].0 == 0x13 && w[7].0 == 0x14 && w[8].0 == 0x15 && w[9].0 == 0x16 && w[10].0 == 0x19 && w[11].0 == 0x1a
        && w[12].0 == 0x1c && w[13].0 == 0x1d;
  }

  // A start that comes up: the set-up, the 30 s watchdog armed, the limit of the step
  // and one Request for the record's target.
  lemma StartRecord(p: Pump, io: WorkIo)
    requires Parked(p) && Work(p, io).pump.active
    ensures
      var o, s := Work(p, io), io.start;
      var q := o.pump;
      && s.packUv >= 0 && SetUp(q.regs) && Reg(q.regs, 0x0c) == 0x40 + 0x80 && FreqHeld(q)
      && q.step == StepIndex(s.packUv / 1000) && q.progIbusMa == IbusLimit(s.ibusKnob, q.step)
      && Reg(q.regs, 0x16) == q.progIbusMa / 50
      && q.targetMv == TargetMv(s.packUv) && q.targetMa == RequestMa(s.opKnob, s.srcMax, q.targetMv)
      && o.requests == [Request(q.targetMv, q.targetMa, s.packUv)] && q.packUv == s.packUv
      && q.ppsTicks == 0 && q.cvTicks == 0 && q.satTicks == 0 && q.lastVbusMv == 0
  {
    hide TargetMv, RequestMa, StepIndex, IbusLimit, InitOk, StartHw;
    ParkedKeeps(p, io.keep);
    StartsExactly(p, io);
    var s := io.start;
    CanStartExactly(io.gate);
    var mv := TargetMv(s.packUv);
    ChipReadyExactly(s);
    BusSettlesExactly(s.busMv, mv - 700, 0);
    var kept := Keepalive(p, io.keep).pump.(direct := true);
    var step, ma := StepIndex(s.packUv / 1000), RequestMa(s.opKnob, s.srcMax, mv);
    HwRecord(kept, s, step, mv, ma);
    HwRegisters(kept, s, step, mv, ma);
    assert Completes(s, mv);
    assert Work(p, io).pump == StartHw(kept, s, step, mv, ma).pump;
    assert Work(p, io).requests == StartHw(kept, s, step, mv, ma).requests;
  }

  lemma HwRegisters(p: Pump, io: StartIo, step: nat, mv: int, ma: int)
    requires step < 3 && io.packUv >= 0 && !p.active && Completes(io, mv)
    ensures var q := StartHw(p, io, step, mv, ma).pump;
      && q.active && q.freqKhz == 850 && SetUp(q.regs) && Reg(q.regs, 0x0c) == 0xc0
      && q.progIbusMa == IbusLimit(io.ibusKnob, step) && Reg(q.regs, 0x16) == q.progIbusMa / 50
  {
    ChipReadyExactly(io);
    BusSettlesExactly(io.busMv, mv - 700, 0);
    hide InitRegs, Settles, InitOk, ChipReady, BusSettles, IbusLimit, SetMode, SetWatchdog;
    InitSetsUp(p.regs, io);
    var p1 := p.(regs := InitRegs(p.regs, io), freqKhz := 850, progIbusMa := 0);
    var p2 := ProgramIbus(p1, io.ibusKnob, step, io.ibusOk).0;
    LimitPositive(io.ibusKnob, step);
    ModeSet(p2.regs, true);
    WatchdogSet(SetMode(p2.regs, true), true);
    WatchdogByte(SetMode(p2.regs, true));
  }

  lemma LimitPositive(knob: nat, step: nat)
    requires step < 3
    ensures IbusLimit(knob, step) > 0
  {
  }

  lemma WatchdogByte(regs: Regs)
    requires Reg(regs, 0x0c) == 0x40
    ensures Reg(SetWatchdog(regs, true), 0x0c) == 0xc0
  {
  }

  /** Over every run. */

  lemma {:induction false} FrequencyHeld(p: Pump, events: seq<Event>)
    requires Idle(p)
    ensures FreqHeld(RunState(p, events))
  {
    hide After, FreqHeld, RunState;
    if events == [] {
      IdleHolds(p);
    } else {
      var front := events[..|events| - 1];
      FrequencyHeld(p, front);
      RunKeeps(p, front);
      RunStep(p, events);
      EventFrequency(RunState(p, front), events[|events| - 1]);
    }
  }

  lemma IdleHolds(p: Pump)
    requires Idle(p)
    ensures FreqHeld(RunState(p, []))
  {
  }

  lemma EventFrequency(p: Pump, e: Event)
    requires Sane(p) && FreqHeld(p)
    ensures FreqHeld(After(p, e).pump)
  {
    hide Tick, Start, Keepalive, SetWatchdog, SetMode, Restore;
    match e
    case DoWork(io) => WorkFrequency(p, io);
    case DoSuspend(capable, wdtOk, restore) =>
      RestoreParks(p, restore);
      WatchdogSet(p.regs, true);
    case AlarmFires =>
    case PumpTrips => ModeSet(p.regs, false);
  }

  lemma WorkFrequency(p: Pump, io: WorkIo)
    requires Sane(p) && FreqHeld(p)
    ensures FreqHeld(Work(p, io).pump)
  {
    hide Tick, Start, Keepalive, Restore;
    KeepaliveKeeps(p, io.keep);
    KeepaliveHolds(p, io.keep);
    var kept := Keepalive(p, io.keep).pump;
    if kept.active {
      if Tick(kept, io.tick).pump.active { TickRecord(kept, io.tick); }
    } else {
      WorkStarts(p, io);
    }
  }

  lemma KeepaliveHolds(p: Pump, io: KeepIo)
    requires FreqHeld(p)
    ensures FreqHeld(Keepalive(p, io).pump)
  {
    hide SetWatchdog, Restore;
    WatchdogSet(p.regs, true);
    var p1 := p.(keepalivePending := false, regs := if io.wdtOk then SetWatchdog(p.regs, true) else p.regs);
    RestoreParks(p1, io.restore);
  }

  // A work item whose keepalive left the driver inactive is one started from there.
  lemma WorkStarts(p: Pump, io: WorkIo)
    requires Sane(p) && !Keepalive(p, io.keep).pump.active
    ensures FreqHeld(Work(p, io).pump)
  {
    hide Tick, Start, Keepalive;
    KeepaliveKeeps(p, io.keep);
    NothingPending(p, io.keep);
    var kept := Keepalive(p, io.keep).pump;
    ParkedKeeps(kept, io.keep);
    assert Keepalive(kept, io.keep).pump == kept;
    if Work(p, io).pump.active { StartRecord(kept, io); }
  }

  lemma NothingPending(p: Pump, io: KeepIo)
    ensures !Keepalive(p, io).pump.keepalivePending
  {
  }

  // After every work item that ran a tick and leaves the pump running: what the readings
  // of that tick were.
  lemma RunningReadings(p: Pump, events: seq<Event>, io: WorkIo)
    requires Idle(p)
    ensures
      var was := RunState(p, events);
      var t := io.tick;
      was.active && Work(was, io).pump.active && !KeepHandsBack(was, io.keep) ==>
        && 0 <= t.capacity < 90 && 0 <= t.packTemp < 440 && 0 <= t.dieTemp < 1100
        && 0 <= t.vbusMv <= 10800 && 0 <= t.vbatMv < 4430 && 0 <= t.packUv < 4430000 && t.ibusMa >= 0
        && t.modeOk && t.status3 >= 0 && t.status3 / 32 % 2 == 1 && ChargeOn(was.regs)
        && (t.ibusMa < 1000 ==> was.cvTicks < 2)
  {
    hide Tick, Keepalive, KeepHandsBack;
    var was := RunState(p, events);
    KeepaliveEnds(was, io.keep);
    var kept := Keepalive(was, io.keep).pump;
    if kept.active { TickStopsExactly(kept, io.tick); }
  }

  // And the converse: with readings in order only a lost transfer stops a tick.
  lemma OnlyReadingsStop(p: Pump, io: TickIo)
    requires p.active && InOrder(p, io) && io.ibusOk && io.refreshOk && io.wdtOk
    ensures Tick(p, io).pump.active
  {
    hide InOrder, Tick, StepIndex, IbusLimit;
    TickStopsExactly(p, io);
  }

  /** Hand-back, suspend and keepalive. */

  // The hand-back also stops the converter; nothing but its three fields changes.
  lemma RestoreRegisters(p: Pump, io: RestoreIo)
    ensures var q := Restore(p, io);
      && (io.adcOk ==> Reg(q.regs, 0x1c) % 2 == 0)
      && Reg(q.regs, 0x1c) / 2 == Reg(p.regs, 0x1c) / 2
      && (forall a :: a !in {0x0c, 0x10, 0x1c} ==> Reg(q.regs, a) == Reg(p.regs, a))
      && q.lastVbusMv == 0 && q.keepalivePending == p.keepalivePending
  {
    hide SetMode, SetWatchdog;
    ModeSet(p.regs, false);
    var r1 := if io.modeOk then SetMode(p.regs, false) else p.regs;
    var r2 := if io.adcOk then StopAdc(r1) else r1;
    WatchdogSet(r2, false);
  }

  // With a wake clock the pump runs on, its watchdog served.
  lemma SuspendKeepsRunning(p: Pump, wdtOk: bool, restore: RestoreIo)
    requires p.active
    ensures var q := Suspend(p, true, wdtOk, restore);
      q == p.(regs := q.regs) && (WatchdogOn(q.regs) <==> wdtOk || WatchdogOn(p.regs))
      && forall a :: a != 0x0c ==> Reg(q.regs, a) == Reg(p.regs, a)
  {
    hide SetWatchdog;
    WatchdogSet(p.regs, true);
  }

  // A pending keepalive asks once for the present target, unless it is too hot.
  lemma KeepaliveRenews(p: Pump, io: KeepIo)
    requires p.active && p.keepalivePending
    ensures Keepalive(p, io).requests
         == if io.packTemp >= 440 || io.dieTemp >= 800 then [] else [Request(p.targetMv, p.targetMa, p.packUv)]
    ensures !Keepalive(p, io).pump.keepalivePending
  {
  }
}
