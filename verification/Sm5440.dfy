/**
 * The SM5440 direct charger driver: the device record and the methods that
 * update it in place, each tied to the specification of its whole effect.
 */
module Sm5440 {
  import opened Sm5440Spec

  class DirectCharger {
    var active: bool
    var direct: bool
    var keepalivePending: bool
    var targetMv: int
    var targetMa: int
    var step: nat
    var freqKhz: int
    var progIbusMa: nat
    var lastVbusMv: int
    var ppsTicks: nat
    var cvTicks: nat
    var satTicks: nat
    var regs: Regs
    var packUv: nat  // history: the reading behind targetMv

    function State(): Pump
      reads this
    {
      Pump(active, direct, keepalivePending, targetMv, targetMa, packUv, step, freqKhz, progIbusMa,
           lastVbusMv, ppsTicks, cvTicks, satTicks, regs)
    }

    constructor (chip: Regs)
      ensures !active && !direct && !keepalivePending && regs == chip
      ensures progIbusMa == ppsTicks == cvTicks == satTicks == 0
    {
      active, direct, keepalivePending := false, false, false;
      targetMv, targetMa, step, freqKhz, packUv := 0, 0, 0, 0, 0;
      progIbusMa, lastVbusMv, ppsTicks, cvTicks, satTicks := 0, 0, 0, 0, 0;
      regs := chip;
    }

    method ClearCounters()
      modifies this
      ensures State() == old(State()).(ppsTicks := 0, cvTicks := 0, satTicks := 0, lastVbusMv := 0)
    {
      ppsTicks, cvTicks, satTicks, lastVbusMv := 0, 0, 0, 0;
    }

    method RestoreSwitching(io: RestoreIo)
      modifies this
      ensures State() == Restore(old(State()), io)
    {
      hide SetMode, SetWatchdog, StopAdc;
      var chip := if io.modeOk then SetMode(regs, false) else regs;
      chip := if io.adcOk then StopAdc(chip) else chip;
      chip := if io.wdtOk then SetWatchdog(chip, false) else chip;
      regs := chip;
      ClearCounters();
      active, direct, progIbusMa := false, false, 0;
    }

    method ProgramLimit(knob: nat, forStep: nat, ok: bool) returns (done: bool)
      requires forStep < 3
      modifies this
      ensures (State(), done) == ProgramIbus(old(State()), knob, forStep, ok)
    {
      var ma := IbusLimit(knob, forStep);
      if ma == progIbusMa { return true; }
      if !ok { return false; }
      regs := regs[IBUSCNTL := ma / 50];
      progIbusMa := ma;
      return true;
    }

    method HwInit(io: StartIo) returns (ok: bool)
      modifies this
      ensures State() == old(State()).(regs := InitRegs(old(regs), io))
      ensures ok == InitOk(io)
    {
      hide Reg;
      if !io.resetOk { return false; }
      regs := regs[CNTL1 := 0x00];
      ghost var reset := regs;
      var i := 0;
      while i < |HW_INIT|
        invariant 0 <= i <= |HW_INIT| && i <= io.initWrites
        invariant regs == Written(reset, HW_INIT[..i])
        invariant State() == old(State()).(regs := regs)
      {
        if i == io.initWrites { return false; }
        regs := regs[HW_INIT[i].0 := HW_INIT[i].1];
        assert HW_INIT[..i + 1][..i] == HW_INIT[..i];
        i := i + 1;
      }
      return io.latchesOk;
    }

    // Waits for the bus to reach the Request, at most forty readings.
    method AwaitBus(busMv: seq<int>, need: int) returns (ok: bool)
      ensures ok <==> exists i :: 0 <= i < |busMv| && i < 40 && busMv[i] >= need
                        && forall j :: 0 <= j <= i ==> busMv[j] >= 0
      ensures ok == Settles(busMv, need, 0)
    {
      var i := 0;
      while i < 40
        invariant 0 <= i <= 40 && i <= |busMv|
        invariant Settles(busMv, need, 0) == Settles(busMv, need, i)
        invariant forall j :: 0 <= j < i ==> 0 <= busMv[j] < need
      {
        if i >= |busMv| || busMv[i] < 0 { return false; }
        if busMv[i] >= need { return true; }
        i := i + 1;
      }
      return false;
    }

    method Activate(forStep: nat, mv: int, ma: int, reading: nat)
      modifies this
      ensures State() == old(State()).(active := true, step := forStep, targetMv := mv, targetMa := ma,
                packUv := reading, ppsTicks := 0, cvTicks := 0, satTicks := 0, lastVbusMv := 0)
    {
      active, step, targetMv, targetMa, packUv := true, forStep, mv, ma, reading;
      ClearCounters();
    }

    // Pump up: contract, settled bus, charge bit, watchdog, power-good.
    method EnablePump(io: StartIo, forStep: nat, mv: int, ma: int) returns (asked: seq<Request>, serviced: bool)
      requires io.packUv >= 0
      modifies this
      ensures Outcome(State(), asked, serviced) == StartPump(old(State()), io, forStep, mv, ma)
    {
      hide Restore, Settles, VbusPok, SetMode, SetWatchdog;
      asked, serviced := [Request(mv, ma, io.packUv)], false;
      var settled := false;
      if io.ppsOk { settled := AwaitBus(io.busMv, mv - 700); }
      if settled && io.chargeOk {
        var chip := SetMode(regs, true);
        if io.wdtOk {
          chip := SetWatchdog(chip, true);
          serviced := io.status3 >= 0 && VbusPok(io.status3);
        }
        regs := chip;
      }
      if serviced {
        Activate(forStep, mv, ma, io.packUv);
      } else {
        RestoreSwitching(io.restore);
      }
    }

    method PowerUp(io: StartIo, forStep: nat, mv: int, ma: int) returns (asked: seq<Request>, serviced: bool)
      requires forStep < 3 && io.packUv >= 0
      modifies this
      ensures Outcome(State(), asked, serviced) == StartHw(old(State()), io, forStep, mv, ma)
    {
      hide Restore, ProgramIbus, InitRegs, InitOk, StartPump;
      asked, serviced := [], false;
      var ok := HwInit(io);
      if !ok { RestoreSwitching(io.restore); return; }
      freqKhz, progIbusMa := 850, 0;
      ok := ProgramLimit(io.ibusKnob, forStep, io.ibusOk);
      if !ok { RestoreSwitching(io.restore); return; }
      asked, serviced := EnablePump(io, forStep, mv, ma);
    }

    method StartCharge(io: StartIo) returns (asked: seq<Request>, serviced: bool)
      modifies this
      ensures Outcome(State(), asked, serviced) == Start(old(State()), io)
    {
      hide StartHw, RequestMa, TargetMv, StepIndex;
      asked, serviced := [], false;
      if io.packUv < 3400 * 1000 { return; }
      var forStep := StepIndex(io.packUv / 1000);
      var mv := TargetMv(io.packUv);
      var ma := RequestMa(io.opKnob, io.srcMax, mv);
      direct := io.directOk;
      if direct { asked, serviced := PowerUp(io, forStep, mv, ma); }
    }

    // One pass of the closed loop over the PPS voltage.
    method Steer(io: TickIo, forStep: nat)
      requires forStep < 3 && io.packUv >= 0
      modifies this
      ensures State() == TickTarget(old(State()), io, forStep)
    {
      hide RequestMa, TargetIbus, TargetMv, CeilMv;
      var aim := TargetIbus(io.aimKnob, forStep);
      var floorMv, ceilMv := TargetMv(io.packUv), CeilMv(io.packUv);
      if io.ibusMa > aim + 200 {
        targetMv, satTicks := targetMv - 40, 0;
      } else if lastVbusMv != 0 && io.vbusMv < lastVbusMv - 300 {
        targetMv, satTicks := Clamp(io.vbusMv + 40, floorMv, ceilMv), 0;
      } else if io.ibusMa < aim - 200 {
        if targetMv < ceilMv {
          targetMv, satTicks := targetMv + 40, 0;
        } else {
          satTicks := satTicks + 1;
          if satTicks >= 8 {
            targetMv, satTicks := Clamp(io.vbusMv + 40, floorMv, ceilMv), 0;
          }
        }
      } else {
        satTicks := 0;
      }
      FloorPositive(targetMv, io.packUv);
      targetMv := Clamp(targetMv, floorMv, ceilMv);
      targetMa := RequestMa(io.opKnob, io.srcMax, targetMv);
      lastVbusMv := io.vbusMv;
      packUv := io.packUv;
    }

    // Every other tick a Request, with one retry; then the watchdog.
    method Refresh(io: TickIo) returns (asked: seq<Request>, serviced: bool)
      requires targetMv > 0
      modifies this
      ensures Outcome(State(), asked, serviced) == TickRefresh(old(State()), io)
    {
      hide Restore, RequestMa, SetWatchdog;
      asked, serviced := [], false;
      ppsTicks := ppsTicks + 1;
      if ppsTicks >= 2 {
        ppsTicks := 0;
        asked := [Request(targetMv, targetMa, packUv)];
        var ok := io.refreshOk;
        if !ok {
          targetMa := RequestMa(io.retryKnob, io.retrySrcMax, targetMv);
          asked := asked + [Request(targetMv, targetMa, packUv)];
          ok := io.retryOk;
        }
        if !ok { RestoreSwitching(io.restore); return; }
      }
      if !io.wdtOk { RestoreSwitching(io.restore); return; }
      regs := SetWatchdog(regs, true);
      serviced := true;
    }

    // The voltage limits, and the taper counter with its three-tick limit.
    method NearFull(io: TickIo) returns (handOff: bool)
      requires io.packUv >= 0
      modifies this
      ensures State() == old(State()).(cvTicks := if Tapered(io) then old(cvTicks) + 1 else 0)
      ensures handOff == HandOff(old(State()), io)
    {
      handOff := io.vbatMv >= 4430 || io.packUv >= 4430 * 1000;
      if io.ibusMa * 2 < 2000 {
        cvTicks := cvTicks + 1;
        if cvTicks >= 3 { handOff := true; }
      } else {
        cvTicks := 0;
      }
    }

    method DerateFrequency(io: TickIo)
      modifies this
      ensures State() == ProgramFreq(old(State()), io)
    {
      var khz := PickFreq(io.dieTemp, io.packTemp);
      if khz != freqKhz && io.freqOk {
        regs := regs[CNTL7 := (khz - 250) / 50];
        freqKhz := khz;
      }
    }

    method RegulationTick(io: TickIo) returns (asked: seq<Request>, serviced: bool)
      requires active
      modifies this
      ensures Outcome(State(), asked, serviced) == Tick(old(State()), io)
    {
      hide Restore, ProgramIbus, ProgramFreq, TickTarget, TickRefresh, Faulty, HandOff, StepIndex;
      asked, serviced := [], false;
      if Faulty(State(), io) { RestoreSwitching(io.restore); return; }
      ReadingsGood(State(), io);
      var handOff := NearFull(io);
      if handOff { RestoreSwitching(io.restore); return; }
      DerateFrequency(io);
      var forStep := StepIndex(io.packUv / 1000);
      step := forStep;
      var ok := ProgramLimit(io.ibusKnob, forStep, io.ibusOk);
      if !ok { RestoreSwitching(io.restore); return; }
      Steer(io, forStep);
      asked, serviced := Refresh(io);
    }

    method SuspendKeepalive(io: KeepIo) returns (asked: seq<Request>)
      modifies this
      ensures Outcome(State(), asked, false) == Keepalive(old(State()), io)
    {
      hide Restore, SetWatchdog;
      asked := [];
      if !keepalivePending { return; }
      keepalivePending := false;
      if !active { return; }
      if io.wdtOk { regs := SetWatchdog(regs, true); }
      if io.packTemp >= 440 || io.dieTemp >= 800 { RestoreSwitching(io.restore); return; }
      asked := [Request(targetMv, targetMa, packUv)];
      if !io.refreshOk { RestoreSwitching(io.restore); }
    }

    // The delayed work: keepalive tail, then a start or a regulation tick.
    method DoWork(io: WorkIo) returns (asked: seq<Request>, serviced: bool)
      modifies this
      ensures Outcome(State(), asked, serviced) == Work(old(State()), io)
    {
      hide Keepalive, Start, Tick, Eligible;
      asked := SuspendKeepalive(io.keep);
      serviced := false;
      var more: seq<Request>;
      if active {
        more, serviced := RegulationTick(io.tick);
        asked := asked + more;
      } else if Eligible(io.gate) {
        more, serviced := StartCharge(io.start);
        asked := asked + more;
      }
    }

    method DoSuspend(capable: bool, wdtOk: bool, restore: RestoreIo)
      modifies this
      ensures State() == Suspend(old(State()), capable, wdtOk, restore)
    {
      if !active { return; }
      if !capable { RestoreSwitching(restore); return; }
      if wdtOk { regs := SetWatchdog(regs, true); }
    }
  }
}
