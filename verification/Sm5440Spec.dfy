/**
 * The SM5440 direct charger driver as a state machine: one step per callback,
 * every transfer free to fail, every reading arbitrary.
 */
module Sm5440Spec {
  import opened Numbers

  /** Numbers. */

  // The kernel's clamp(): the upper bound is compared first.
  function Clamp(v: int, lo: int, hi: int): int {
    if v >= hi then hi else if v <= lo then lo else v
  }

  // An unsigned module parameter read as an int.
  function AsInt(u: nat): int {
    var w := u % 0x1_0000_0000;
    if w < 0x8000_0000 then w else w - 0x1_0000_0000
  }

  function CeilDiv(n: nat, d: nat): nat
    requires d > 0
  {
    (n + d - 1) / d
  }

  const STEP_IBUS := [4330, 3710, 2970]

  function TargetMv(packUv: nat): (mv: int)
    ensures 8200 <= mv <= 10500
  {
    Clamp(CeilDiv(packUv / 1000 * 2 + 1100, 20) * 20, 8200, 10500)
  }

  function CeilMv(packUv: nat): int {
    Min(packUv / 1000 * 2 + 2000, 10500)
  }

  function StepIndex(packMv: int): (i: nat)
    ensures i < 3
  {
    if packMv < 4130 then 0 else if packMv < 4250 then 1 else 2
  }

  function TargetIbus(knob: nat, step: nat): (ma: int)
    requires step < 3
    ensures 800 <= ma <= 4800
  {
    if knob % 0x1_0000_0000 != 0 then Clamp(AsInt(knob), 800, 4800) else STEP_IBUS[step]
  }

  function IbusLimit(knob: nat, step: nat): (ma: nat)
    requires step < 3
    ensures 1200 <= ma <= 4800
  {
    Min(TargetIbus(knob, step) + 400, 4800)
  }

  function FloorMa(mv: int): int
    requires mv > 0
  {
    CeilDiv(CeilDiv(15000000, mv), 50) * 50
  }

  // srcMax is the source's advertised current in uA, not positive if unknown.
  function RequestMa(opKnob: nat, srcMax: int, mv: int): int
    requires mv > 0
  {
    var want := Max(Clamp(AsInt(opKnob), 1000, 5000), FloorMa(mv));
    Max(if srcMax > 0 then Min(want, srcMax / 1000 / 50 * 50) else want, FloorMa(mv))
  }

  function PickFreq(dieTemp: int, packTemp: int): (khz: nat)
    ensures 450 <= khz <= 850
  {
    if dieTemp >= 950 then 450 else if dieTemp >= 800 || packTemp >= 400 then 650 else 850
  }

  /** State. */

  const CNTL1 := 0x0c
  const CNTL5 := 0x10
  const CNTL7 := 0x12
  const IBUSCNTL := 0x16
  const ADCCNTL1 := 0x1c

  type Regs = map<nat, nat>

  function Reg(regs: Regs, a: nat): nat {
    if a in regs then regs[a] else 0
  }

  // Read-modify-write of one field: the operating mode in bits 3:2 of CNTL5 (1 is
  // charging), the watchdog in bit 7 of CNTL1, the converter in bit 0 of ADCCNTL1.
  function SetMode(regs: Regs, charge: bool): Regs {
    var was := Reg(regs, CNTL5);
    regs[CNTL5 := was / 16 * 16 + (if charge then 4 else 0) + was % 4]
  }

  function SetWatchdog(regs: Regs, on: bool): Regs {
    var was := Reg(regs, CNTL1);
    regs[CNTL1 := was / 256 * 256 + (if on then 128 else 0) + was % 128]
  }

  function StopAdc(regs: Regs): Regs {
    regs[ADCCNTL1 := Reg(regs, ADCCNTL1) / 2 * 2]
  }

  predicate ChargeOn(regs: Regs) { Reg(regs, CNTL5) / 4 % 2 == 1 }
  predicate WatchdogOn(regs: Regs) { Reg(regs, CNTL1) / 128 % 2 == 1 }

  // direct is sm5714_battery's direct_charging; packUv is the battery reading that
  // set the present target.
  datatype Pump = Pump(
    active: bool, direct: bool, keepalivePending: bool,
    targetMv: int, targetMa: int, packUv: nat,
    step: nat, freqKhz: int, progIbusMa: nat, lastVbusMv: int,
    ppsTicks: nat, cvTicks: nat, satTicks: nat,
    regs: Regs)

  // A Request put to the source: voltage, current, and the reading behind them.
  datatype Request = Request(mv: int, ma: int, packUv: nat)

  datatype Outcome = Outcome(pump: Pump, requests: seq<Request>, serviced: bool)

  /** Restore: the three register updates may fail, the rest goes on. */

  datatype RestoreIo = RestoreIo(modeOk: bool, adcOk: bool, wdtOk: bool)

  function Restore(p: Pump, io: RestoreIo): Pump {
    var r0 := p.regs;
    var r1 := if io.modeOk then SetMode(r0, false) else r0;
    var r2 := if io.adcOk then StopAdc(r1) else r1;
    var r3 := if io.wdtOk then SetWatchdog(r2, false) else r2;
    p.(regs := r3, direct := false, ppsTicks := 0, cvTicks := 0, satTicks := 0,
       progIbusMa := 0, lastVbusMv := 0, active := false)
  }

  /** Start. */

  // The register writes of hw_init after the reset, in order.
  const HW_INIT: seq<(nat, nat)> := [
    (0x0c, 0x40), (0x0d, 0xf2), (0x0e, 0xb8), (0x0f, 0xff), (0x11, 0x09), (0x12, 12),
    (0x13, 0x07), (0x14, 48), (0x15, 0x3f), (0x16, 59), (0x19, 0xfe), (0x1a, 0x0c),
    (0x1c, 0x0b), (0x1d, 0xdf)]

  function Written(regs: Regs, writes: seq<(nat, nat)>): Regs {
    if writes == [] then regs
    else Written(regs, writes[..|writes| - 1])[writes[|writes| - 1].0 := writes[|writes| - 1].1]
  }

  // busMv: the readings of the settling loop, negative for a failed one.
  datatype StartIo = StartIo(
    packUv: int, opKnob: nat, srcMax: int, directOk: bool,
    resetOk: bool, initWrites: nat, latchesOk: bool,
    ibusKnob: nat, ibusOk: bool, ppsOk: bool, busMv: seq<int>,
    chargeOk: bool, wdtOk: bool, status3: int, restore: RestoreIo)

  // First reading that is an error or high enough, within 40 tries.
  function Settles(busMv: seq<int>, need: int, i: nat): bool
    decreases 40 - i
  {
    if i >= 40 || i >= |busMv| then false
    else if busMv[i] < 0 then false
    else if busMv[i] >= need then true
    else Settles(busMv, need, i + 1)
  }

  function ProgramIbus(p: Pump, knob: nat, step: nat, ok: bool): (r: (Pump, bool))
    requires step < 3
  {
    var ma := IbusLimit(knob, step);
    if ma == p.progIbusMa then (p, true)
    else if ok then (p.(regs := p.regs[IBUSCNTL := ma / 50], progIbusMa := ma), true)
    else (p, false)
  }

  predicate VbusPok(status3: int) { status3 / 32 % 2 == 1 }

  function Start(p: Pump, io: StartIo): Outcome {
    if io.packUv < 3400 * 1000 then Outcome(p, [], false)
    else
      var step := StepIndex(io.packUv / 1000);
      var mv := TargetMv(io.packUv);
      var ma := RequestMa(io.opKnob, io.srcMax, mv);
      if !io.directOk then Outcome(p.(direct := false), [], false)
      else StartHw(p.(direct := true), io, step, mv, ma)
  }

  // hw_init and the input limit, then the PPS contract.
  function StartHw(p: Pump, io: StartIo, step: nat, mv: int, ma: int): Outcome
    requires step < 3 && io.packUv >= 0
  {
    var p1 := p.(regs := InitRegs(p.regs, io));
    if !InitOk(io) then Outcome(Restore(p1, io.restore), [], false)
    else
      var (p2, ibusOk) := ProgramIbus(p1.(freqKhz := 850, progIbusMa := 0), io.ibusKnob, step, io.ibusOk);
      if !ibusOk then Outcome(Restore(p2, io.restore), [], false)
      else StartPump(p2, io, step, mv, ma)
  }

  predicate InitOk(io: StartIo) {
    io.resetOk && io.initWrites >= |HW_INIT| && io.latchesOk
  }

  function InitRegs(regs: Regs, io: StartIo): Regs {
    var reset := regs[CNTL1 := 0x00];
    if !io.resetOk then regs
    else Written(reset, HW_INIT[..Min(io.initWrites, |HW_INIT|)])
  }

  function StartPump(p: Pump, io: StartIo, step: nat, mv: int, ma: int): Outcome
    requires io.packUv >= 0
  {
    var asked := [Request(mv, ma, io.packUv)];
    if !io.ppsOk || !Settles(io.busMv, mv - 700, 0) || !io.chargeOk then Outcome(Restore(p, io.restore), asked, false)
    else
      var on := p.(regs := SetMode(p.regs, true));
      if !io.wdtOk then Outcome(Restore(on, io.restore), asked, false)
      else
        var guarded := on.(regs := SetWatchdog(on.regs, true));
        if io.status3 < 0 || !VbusPok(io.status3) then Outcome(Restore(guarded, io.restore), asked, false)
        else Outcome(
          guarded.(active := true, step := step, targetMv := mv, targetMa := ma, packUv := io.packUv,
                   ppsTicks := 0, cvTicks := 0, satTicks := 0, lastVbusMv := 0),
          asked, true)
  }

  /** One regulation tick. */

  datatype TickIo = TickIo(
    capacity: int, packTemp: int, packUv: int, modeOk: bool, status3: int,
    vbusMv: int, ibusMa: int, vbatMv: int, dieTemp: int,
    freqOk: bool, ibusKnob: nat, ibusOk: bool, aimKnob: nat,
    opKnob: nat, srcMax: int, refreshOk: bool,
    retryKnob: nat, retrySrcMax: int, retryOk: bool,
    wdtOk: bool, restore: RestoreIo)

  predicate Faulty(p: Pump, io: TickIo) {
    || io.capacity < 0 || io.packTemp < 0 || io.packUv < 0 || !io.modeOk
    || io.status3 < 0 || io.vbusMv < 0 || io.ibusMa < 0 || io.vbatMv < 0 || io.dieTemp < 0
    || io.capacity >= 90 || io.packTemp >= 440
    || !ChargeOn(p.regs) || !VbusPok(io.status3)
    || io.vbusMv > 10800 || io.vbatMv > 4450 || io.dieTemp >= 1100
  }

  lemma ReadingsGood(p: Pump, io: TickIo)
    requires !Faulty(p, io)
    ensures io.packUv >= 0
  {
  }

  predicate Tapered(io: TickIo) { io.ibusMa * 2 < 2000 }

  predicate HandOff(p: Pump, io: TickIo) {
    io.vbatMv >= 4430 || io.packUv >= 4430 * 1000 || (Tapered(io) && p.cvTicks + 1 >= 3)
  }

  // The regulated voltage before the final clamp, and the ceiling counter.
  function Regulated(p: Pump, io: TickIo, aim: int, floorMv: int, ceilMv: int): (int, nat) {
    var eased := Clamp(io.vbusMv + 40, floorMv, ceilMv);
    if io.ibusMa > aim + 200 then (p.targetMv - 40, 0)
    else if p.lastVbusMv != 0 && io.vbusMv < p.lastVbusMv - 300 then (eased, 0)
    else if io.ibusMa < aim - 200 then
      if p.targetMv < ceilMv then (p.targetMv + 40, 0)
      else if p.satTicks + 1 >= 8 then (eased, 0)
      else (p.targetMv, p.satTicks + 1)
    else (p.targetMv, 0)
  }

  // The switching frequency follows the temperatures; a lost write is ignored.
  function ProgramFreq(p: Pump, io: TickIo): Pump {
    var khz := PickFreq(io.dieTemp, io.packTemp);
    if khz != p.freqKhz && io.freqOk
    then p.(freqKhz := khz, regs := p.regs[CNTL7 := (khz - 250) / 50])
    else p
  }

  function Tick(p: Pump, io: TickIo): Outcome
    requires p.active
  {
    if Faulty(p, io) then Outcome(Restore(p, io.restore), [], false)
    else
      var p1 := p.(cvTicks := if Tapered(io) then p.cvTicks + 1 else 0);
      if HandOff(p, io) then Outcome(Restore(p1, io.restore), [], false)
      else
        var step := StepIndex(io.packUv / 1000);
        var (p3, ibusOk) := ProgramIbus(ProgramFreq(p1, io).(step := step), io.ibusKnob, step, io.ibusOk);
        if !ibusOk then Outcome(Restore(p3, io.restore), [], false)
        else TickRefresh(TickTarget(p3, io, step), io)
  }

  // Aim the PPS voltage at the step's input current.
  function TickTarget(p: Pump, io: TickIo, step: nat): (q: Pump)
    requires step < 3 && io.packUv >= 0
    ensures q.targetMv > 0
  {
    var floorMv, ceilMv := TargetMv(io.packUv), CeilMv(io.packUv);
    var (mv, sat) := Regulated(p, io, TargetIbus(io.aimKnob, step), floorMv, ceilMv);
    var clamped := Clamp(mv, floorMv, ceilMv);
    FloorPositive(mv, io.packUv);
    p.(targetMv := clamped, satTicks := sat, packUv := io.packUv,
       targetMa := RequestMa(io.opKnob, io.srcMax, clamped), lastVbusMv := io.vbusMv)
  }

  lemma FloorPositive(mv: int, packUv: nat)
    ensures Clamp(mv, TargetMv(packUv), CeilMv(packUv)) > 0
  {
  }

  // Every other tick, one Request with one retry; then the watchdog.
  function TickRefresh(p: Pump, io: TickIo): Outcome
    requires p.targetMv > 0
  {
    if p.ppsTicks + 1 < 2 then TickWatchdog(p.(ppsTicks := p.ppsTicks + 1), io, [])
    else
      var p1 := p.(ppsTicks := 0);
      var first := Request(p1.targetMv, p1.targetMa, p1.packUv);
      if io.refreshOk then TickWatchdog(p1, io, [first])
      else
        var p2 := p1.(targetMa := RequestMa(io.retryKnob, io.retrySrcMax, p1.targetMv));
        var asked := [first, Request(p2.targetMv, p2.targetMa, p2.packUv)];
        if io.retryOk then TickWatchdog(p2, io, asked) else Outcome(Restore(p2, io.restore), asked, false)
  }

  function TickWatchdog(p: Pump, io: TickIo, asked: seq<Request>): Outcome {
    if io.wdtOk then Outcome(p.(regs := SetWatchdog(p.regs, true)), asked, true)
    else Outcome(Restore(p, io.restore), asked, false)
  }

  /** The suspend keepalive at the head of the work, and the work itself. */

  datatype KeepIo = KeepIo(packTemp: int, dieTemp: int, wdtOk: bool, refreshOk: bool, restore: RestoreIo)

  function Keepalive(p: Pump, io: KeepIo): Outcome {
    if !p.keepalivePending then Outcome(p, [], false)
    else if !p.active then Outcome(p.(keepalivePending := false), [], false)
    else
      var p1 := p.(keepalivePending := false,
                   regs := if io.wdtOk then SetWatchdog(p.regs, true) else p.regs);
      if io.packTemp >= 440 || io.dieTemp >= 800 then Outcome(Restore(p1, io.restore), [], false)
      else
        var asked := [Request(p1.targetMv, p1.targetMa, p1.packUv)];
        Outcome(if io.refreshOk then p1 else Restore(p1, io.restore), asked, false)
  }

  // online: 0 no source, 1 fixed, 2 programmable.
  datatype GateIo = GateIo(online: int, fastCharge: bool, ppsSource: bool, capacity: int, temp: int, packUv: int)

  predicate Eligible(io: GateIo) {
    && io.online > 0 && io.fastCharge && io.ppsSource
    && 5 <= io.capacity < 90 && 100 <= io.temp < 420
    && 3500000 <= io.packUv < 4350000
  }

  datatype WorkIo = WorkIo(keep: KeepIo, gate: GateIo, start: StartIo, tick: TickIo)

  function Work(p: Pump, io: WorkIo): Outcome {
    var kept := Keepalive(p, io.keep);
    if kept.pump.active then
      var t := Tick(kept.pump, io.tick);
      Outcome(t.pump, kept.requests + t.requests, t.serviced)
    else if Eligible(io.gate) then
      var s := Start(kept.pump, io.start);
      Outcome(s.pump, kept.requests + s.requests, s.serviced)
    else kept
  }

  // Suspend: without a wake-capable clock hand the battery back, else pet the watchdog.
  function Suspend(p: Pump, capable: bool, wdtOk: bool, restore: RestoreIo): Pump {
    if !p.active then p
    else if !capable then Restore(p, restore)
    else p.(regs := if wdtOk then SetWatchdog(p.regs, true) else p.regs)
  }

  /** Runs. */

  datatype Event =
    | DoWork(io: WorkIo)
    | DoSuspend(capable: bool, wdtOk: bool, restore: RestoreIo)
    | AlarmFires
    | PumpTrips        // the chip stops converting on its own

  function After(p: Pump, e: Event): Outcome {
    match e
    case DoWork(io) => Work(p, io)
    case DoSuspend(capable, wdtOk, restore) => Outcome(Suspend(p, capable, wdtOk, restore), [], false)
    case AlarmFires => Outcome(p.(keepalivePending := true), [], false)
    case PumpTrips => Outcome(p.(regs := SetMode(p.regs, false)), [], false)
  }

  function RunState(p: Pump, events: seq<Event>): Pump {
    if events == [] then p else After(RunState(p, events[..|events| - 1]), events[|events| - 1]).pump
  }

  // Requests of the run, oldest first.
  function RunRequests(p: Pump, events: seq<Event>): seq<Request> {
    if events == [] then []
    else
      var before := events[..|events| - 1];
      RunRequests(p, before) + After(RunState(p, before), events[|events| - 1]).requests
  }
}
