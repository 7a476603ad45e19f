/**
 * The routines of the SM5714 battery driver, one access at a time.  `k` is what
 * the caller does with the return code; negative codes are errors.
 */
module Sm5714Battery {
  import opened Numbers
  import opened Wrappers
  import opened Sm5714Codes
  import opened Sm5714Machine

  const EIO := -5
  const EBUSY := -16
  const ERANGE := -34
  const EPROBE_DEFER := -517

  // POWER_SUPPLY_STATUS_* and POWER_SUPPLY_USB_TYPE_*
  const CHARGING := 1
  const DISCHARGING := 2
  const NOT_CHARGING := 3
  const FULL := 4
  const UNKNOWN := 0
  const SDP := 1
  const DCP := 2
  const CDP := 3
  const PD := 6

  predicate Bit(v: int, weight: int)
    requires weight > 0
  {
    v / weight % 2 == 1
  }

  /** Register helpers. */

  function Merge(was: bv8, mask: bv8, val: bv8): bv8 {
    (was & !mask) | (val & mask)
  }

  lemma MergeMasked(was: bv8, mask: bv8, val: bv8)
    ensures Merge(was, mask, val) & mask == val & mask
  {
  }

  function UpdateBits(reg: Reg, mask: bv8, val: bv8, k: int -> Prog): Prog {
    Read(reg, (r: Option<bv8>) => if r.None? then k(EIO) else UpdateTo(reg, r.value, Merge(r.value, mask, val), k))
  }

  function UpdateTo(reg: Reg, was: bv8, v: bv8, k: int -> Prog): Prog {
    if v == was then k(0) else Write(reg, v, ok => if ok then k(0) else k(EIO))
  }

  function SetFloatVoltage(k: int -> Prog): Prog {
    Get(FloatUv, uv => FloatTo(uv, k))
  }

  function FloatTo(uv: int, k: int -> Prog): Prog {
    if uv <= 0 then k(0) else UpdateBits(ChgCntl4, 0x3f, BatRegOffset(uv) as bv8, k)
  }

  /** Readings. */

  function FgReadSram(k: Option<int> -> Prog): Prog {
    Lock(Sram, Sense(FgSelect, (sel: Option<int>) =>
      if sel.None? then Unlock(Sram, k(None))
      else Sense(FgData, (raw: Option<int>) => Unlock(Sram, k(raw)))))
  }

  function GetCapacity(k: int -> Prog): Prog {
    FgReadSram((raw: Option<int>) =>
      if raw.None? then k(EIO)
      else k(if raw.value * 10 / 256 / 10 > 100 then 100 else raw.value * 10 / 256 / 10))
  }

  // DIV_ROUND_CLOSEST(x, 100): halves round away from zero.
  function RoundClosest100(x: int): int {
    if x > 0 then (x + 50) / 100 else -((50 - x) / 100)
  }

  // Sign-magnitude fuel-gauge word to 0.1 degC.
  function FgTemp(raw: int): int {
    var t := raw % 0x8000 * 10 * 2989 / 2048 / 256;
    if Bit(raw, 0x8000) then -t else t
  }

  function GetTemp(k: Option<int> -> Prog): Prog {
    Sense(Thermistor, (mc: Option<int>) => if mc.None? then GaugeTemp(k) else PackTemp(RoundClosest100(mc.value), k))
  }

  // An implausible thermistor reading falls back to the gauge.
  function PackTemp(temp: int, k: Option<int> -> Prog): Prog {
    if -200 <= temp <= 900 then k(Some(temp)) else GaugeTemp(k)
  }

  function GaugeTemp(k: Option<int> -> Prog): Prog {
    FgReadSram((raw: Option<int>) => k(if raw.None? then None else Some(FgTemp(raw.value))))
  }

  function GetOnlineRaw(k: int -> Prog): Prog {
    Sense(Status1, (st: Option<int>) =>
      k(if st.None? then EIO else if Bit(st.value, 1) then 1 else 0))
  }

  function GetOnline(k: int -> Prog): Prog {
    Get(OtgActive, otg => if otg != 0 then k(0) else GetOnlineRaw(k))
  }

  function StatusOf(st1: int, st2: int, direct: int): int {
    if Bit(st2, 0x20) then FULL
    else if direct != 0 && Bit(st1, 1) then CHARGING
    else if Bit(st2, 0x08) then CHARGING
    else if Bit(st1, 1) then NOT_CHARGING
    else DISCHARGING
  }

  function GetStatus(k: int -> Prog): Prog {
    Get(OtgActive, otg =>
      if otg != 0 then k(DISCHARGING)
      else Sense(Status1, (st1: Option<int>) =>
        if st1.None? then k(EIO)
        else Sense(Status2, (st2: Option<int>) =>
          if st2.None? then k(EIO)
          else Get(DirectCharging, direct => k(StatusOf(st1.value, st2.value, direct))))))
  }

  function MuicUsbType(t: int): int {
    if Bit(t, 0x08) then CDP
    else if Bit(t, 0x02) || Bit(t, 0x01) then SDP
    else if Bit(t, 0x04) || Bit(t, 0x10) || Bit(t, 0x20) || Bit(t, 0x40) || Bit(t, 0x80) then DCP
    else UNKNOWN
  }

  function GetUsbType(k: int -> Prog): Prog {
    GetOnline(online => UsbTypeWhen(online, k))
  }

  function UsbTypeWhen(online: int, k: int -> Prog): Prog {
    if online < 0 then k(online)
    else if online == 0 then k(UNKNOWN)
    else Get(TypecMv, mv => UsbTypeAt(mv, k))
  }

  function UsbTypeAt(mv: int, k: int -> Prog): Prog {
    if mv > 5000 then k(PD)
    else Sense(MuicType, (t: Option<int>) => k(if t.None? then EIO else MuicUsbType(t.value)))
  }

  /** The D-/D+ switch. */

  function MuicOn(k: int -> Prog): Prog {
    Read(MuicCntl, (c: Option<bv8>) => if c.None? then k(EIO) else MuicOnBc12(c.value, c.value | 0x02, k))
  }

  function MuicOnBc12(oldCntl: bv8, v: bv8, k: int -> Prog): Prog {
    Write(MuicCntl, v, ok => if !ok then k(EIO) else MuicOnPath(oldCntl, k))
  }

  function MuicOnPath(oldCntl: bv8, k: int -> Prog): Prog {
    Read(MuicSw, (sw: Option<bv8>) =>
      if sw.None? then MuicRestore(oldCntl, k) else MuicOnSwitch(oldCntl, (sw.value & !0xbf) | 0x80 | 0x09, k))
  }

  function MuicOnSwitch(oldCntl: bv8, v: bv8, k: int -> Prog): Prog {
    Write(MuicSw, v, ok => if ok then k(0) else MuicRestore(oldCntl, k))
  }

  function MuicRestore(oldCntl: bv8, k: int -> Prog): Prog {
    Write(MuicCntl, oldCntl, _ => k(EIO))
  }

  function MuicOff(k: int -> Prog): Prog {
    Read(MuicSw, (sw: Option<bv8>) => if sw.None? then k(EIO) else MuicOffSwitch(sw.value & !0xbf, k))
  }

  function MuicOffSwitch(v: bv8, k: int -> Prog): Prog {
    Write(MuicSw, v, ok => if ok then MuicOffBc12(k) else k(EIO))
  }

  function MuicOffBc12(k: int -> Prog): Prog {
    Read(MuicCntl, (c: Option<bv8>) => if c.None? then k(EIO) else MuicOffTo(c.value & !0x02, k))
  }

  function MuicOffTo(v: bv8, k: int -> Prog): Prog {
    Write(MuicCntl, v, ok => k(if ok then 0 else EIO))
  }

  /** Charger programming. */

  function ThermalOf(v: int): Thermal {
    if v == 2 then Stop else if v == 1 then Reduced else Normal
  }

  function ConfigureCharging(k: int -> Prog): Prog {
    Lock(Chg, Get(OtgActive, otg =>
      if otg != 0 then ConfigureOut(EBUSY, k)
      else Get(TypecMv, mv => Get(TypecMa, ma => GetUsbType(usbType => ConfigureFor(mv, ma, usbType, k))))))
  }

  function ConfigureOut(ret: int, k: int -> Prog): Prog {
    Unlock(Chg, k(ret))
  }

  function ConfigureFor(mv: int, ma: int, usbType: int, k: int -> Prog): Prog {
    if usbType < 0 then ConfigureOut(usbType, k)
    else Get(ThermalState, th =>
      GetTemp((temp: Option<int>) => ConfigureThermal(ThermalOf(th), temp, mv, ma, usbType, k)))
  }

  function ConfigureThermal(th: Thermal, temp: Option<int>, mv: int, ma: int, usbType: int, k: int -> Prog): Prog {
    if temp.None? then ConfigureLimits(th, mv, ma, usbType, k)
    else Get(ThermalState, now => ConfigureHotter(NextThermal(ThermalOf(now), temp.value), mv, ma, usbType, k))
  }

  function ConfigureHotter(th: Thermal, mv: int, ma: int, usbType: int, k: int -> Prog): Prog {
    Set(ThermalState, Severity(th), ConfigureLimits(th, mv, ma, usbType, k))
  }

  predicate Contract(mv: int, ma: int) { mv >= 5000 && ma >= 500 }

  // Input and pack budgets in mA.
  function Budgets(fast: bool, mv: int, ma: int, usbType: int, th: Thermal): (r: (nat, nat))
    ensures r.1 in {500, 1500, 2100, 2200, 2800, 3150}
    ensures th == Reduced ==> r.1 in {500, 1500, 2100}
  {
    var input, pack :=
      if Contract(mv, ma) then
        if fast then Min(ma, 3000) else Min(ma, if mv > 5000 then 1660 else 3000)
      else if usbType == DCP then 1800
      else if usbType == CDP then 1500
      else 500,
      if Contract(mv, ma) then if fast then 3150 else 2800
      else if usbType == DCP then 2200
      else if usbType == CDP then 1500
      else 500;
    (input, if th == Reduced then Min(pack, 2100) else pack)
  }

  function ConfigureLimits(th: Thermal, mv: int, ma: int, usbType: int, k: int -> Prog): Prog {
    if th == Stop then UpdateBits(Cntl1, 0x08, 0, r => ConfigureOut(r, k))
    else if Contract(mv, ma) then Get(FastCharge, fast => Program(Budgets(fast != 0, mv, ma, usbType, th), k))
    else Program(Budgets(false, mv, ma, usbType, th), k)
  }

  // Lower the input limit, set the charge current, close Q4, restore the limit.
  function Program(budget: (nat, nat), k: int -> Prog): Prog {
    Write(VbusCntl, InputCurrentReg(500) as bv8, ok =>
      if !ok then ConfigureOut(EIO, k) else ProgramPack(budget.0, budget.1, k))
  }

  function ProgramPack(inputMa: nat, packMa: nat, k: int -> Prog): Prog {
    Write(ChgCntl2, FastCurrentReg(packMa) as bv8, ok =>
      if !ok then ConfigureOut(EIO, k)
      else SetFloatVoltage(r => CloseQ4(r, inputMa, k)))
  }

  function CloseQ4(ret: int, inputMa: nat, k: int -> Prog): Prog {
    if ret != 0 then ConfigureOut(ret, k)
    else UpdateBits(Cntl1, 0x08, 0x08, r => RaiseInput(r, inputMa, k))
  }

  function RaiseInput(ret: int, inputMa: nat, k: int -> Prog): Prog {
    if ret != 0 then ConfigureOut(ret, k)
    else Write(VbusCntl, InputCurrentReg(inputMa) as bv8, ok => ConfigureOut(if ok then 0 else EIO, k))
  }

  /** Entry points. */

  function SetPdContract(mv: nat, ma: nat): Prog {
    if (mv != 0 && (mv < 5000 || mv > 9000)) || ma > 3000 then Done(ERANGE)
    else Lock(Global, Sense(Primary, (sm: Option<int>) =>
      if sm.None? then Unlock(Global, Done(EPROBE_DEFER)) else PdStore(mv, ma)))
  }

  function PdStore(mv: nat, ma: nat): Prog {
    Set(TypecMv, mv, Set(TypecMa, ma,
      if mv == 0 || ma == 0 then Unlock(Global, Done(0)) else PdOnline()))
  }

  function PdOnline(): Prog {
    GetOnline(online => PdWhen(online))
  }

  function PdWhen(online: int): Prog {
    if online <= 0 then Unlock(Global, Done(0))
    else Get(DirectCharging, direct =>
      if direct != 0 then Unlock(Global, Done(0)) else ConfigureCharging(r => Unlock(Global, Done(r))))
  }

  function SetDirectCharge(active: bool): Prog {
    Lock(Global, Sense(Primary, (sm: Option<int>) =>
      if sm.None? then Unlock(Global, Done(EPROBE_DEFER))
      else if active then DirectOn() else DirectOff()))
  }

  function DirectOn(): Prog {
    GetTemp((temp: Option<int>) => DirectWarm(temp))
  }

  function DirectWarm(temp: Option<int>): Prog {
    if temp.None? then Unlock(Global, Done(EIO))
    else if temp.value < 100 || temp.value >= 420 then Unlock(Global, Done(ERANGE))
    else Set(DirectCharging, 1, DirectOpen())
  }

  function DirectOpen(): Prog {
    Lock(Chg, UpdateBits(Cntl1, 0x08, 0, r => DirectOpened(r)))
  }

  function DirectOpened(ret: int): Prog {
    Unlock(Chg,
      if ret != 0 then Set(DirectCharging, 0, Unlock(Global, Done(ret))) else Unlock(Global, Done(0)))
  }

  function DirectOff(): Prog {
    Set(DirectCharging, 0, GetOnline(online => DirectBack(online)))
  }

  function DirectBack(online: int): Prog {
    if online > 0 then ConfigureCharging(r => Unlock(Global, Done(r))) else Unlock(Global, Done(0))
  }

  // otgMa is the module parameter, read when the boost is programmed.
  function SetOtg(active: bool, otgMa: bv8): Prog {
    Lock(Global, Sense(Primary, (sm: Option<int>) =>
      if sm.None? then Unlock(Global, Done(EPROBE_DEFER)) else OtgWhen(active, otgMa)))
  }

  function OtgWhen(active: bool, otgMa: bv8): Prog {
    Get(OtgActive, otg =>
      if active == (otg != 0) then Unlock(Global, Done(0))
      else if active then OtgOn(otgMa) else OtgOff())
  }

  function OtgOn(otgMa: bv8): Prog {
    Get(DirectCharging, direct =>
      if direct != 0 then Unlock(Global, Done(EBUSY))
      else GetOnlineRaw(online => OtgOffline(online, otgMa)))
  }

  function OtgOffline(online: int, otgMa: bv8): Prog {
    if online < 0 then Unlock(Global, Done(online))
    else if online != 0 then Unlock(Global, Done(EBUSY))
    else Lock(Chg, MuicOn(r => OtgOpenQ4(r, otgMa)))
  }

  function OtgOpenQ4(ret: int, otgMa: bv8): Prog {
    if ret != 0 then OtgUndo(ret) else UpdateBits(Cntl1, 0x08, 0, r => OtgSetting(r, otgMa))
  }

  // 5.1 V and the selected current limit.
  function BoostSetting(otgMa: bv8): bv8 {
    0x06 | ((otgMa & 3) << 6)
  }

  function OtgSetting(ret: int, otgMa: bv8): Prog {
    if ret != 0 then OtgUndo(ret) else UpdateBits(BstCntl1, 0xcf, BoostSetting(otgMa), r => OtgPower(r))
  }

  function OtgPower(ret: int): Prog {
    if ret != 0 then OtgUndo(ret) else OtgBoost()
  }

  function OtgBoost(): Prog {
    UpdateBits(Cntl2, 0x0f, 0x07, r => OtgBoosted(r))
  }

  function OtgBoosted(ret: int): Prog {
    if ret != 0 then OtgUndo(ret) else Set(OtgActive, 1, Unlock(Chg, Unlock(Global, Done(0))))
  }

  function OtgUndo(ret: int): Prog {
    MuicOff(_ => Unlock(Chg, Unlock(Global, Done(ret))))
  }

  function OtgOff(): Prog {
    Lock(Chg, UpdateBits(Cntl2, 0x0f, 0x05, r => OtgUnboosted(r)))
  }

  function OtgUnboosted(ret: int): Prog {
    if ret != 0 then Unlock(Chg, Unlock(Global, Done(ret)))
    else Set(OtgActive, 0, MuicOff(r => Unlock(Chg, OtgOffTail(r))))
  }

  // The switching charger is restored only after global_lock is dropped.
  function OtgOffTail(ret: int): Prog {
    if ret != 0 then Unlock(Global, Done(ret)) else GetOnlineRaw(online => OtgOffCharge(online))
  }

  function OtgOffCharge(online: int): Prog {
    Unlock(Global, if online > 0 then ConfigureCharging(r => Done(r)) else Done(0))
  }

  function IsOtgActive(): Prog {
    Lock(Global, Sense(Primary, (sm: Option<int>) =>
      if sm.None? then Unlock(Global, Done(0))
      else Get(OtgActive, otg => Unlock(Global, Done(otg)))))
  }

  function FastChargeEnabled(): Prog {
    Lock(Global, Sense(Primary, (sm: Option<int>) => Unlock(Global,
      if sm.None? then Done(0) else Get(FastCharge, fast => Done(fast)))))
  }

  function FastChargeStore(enabled: bool): Prog {
    Get(FastCharge, fast =>
      if enabled == (fast != 0) then Done(0)
      else Set(FastCharge, if enabled then 1 else 0, ConfigureCharging(_ => Done(0))))
  }

  function PollWork(): Prog {
    GetStatus(status => PollStatused(status))
  }

  function PollStatused(status: int): Prog {
    GetOnline(online => PollTyped(status, online))
  }

  function PollTyped(status: int, online: int): Prog {
    GetUsbType(_ => PollCounted(status, online))
  }

  function PollCounted(status: int, online: int): Prog {
    Get(PollCount, n => Set(PollCount, (n + 1) % 0x1_0000_0000,
      if n % 10 == 0 then GetCapacity(_ => PollThermal(status, online)) else PollThermal(status, online)))
  }

  function PollThermal(status: int, online: int): Prog {
    Get(ThermalState, before =>
      if online <= 0 then PollRecover(status, online)
      else GetTemp((temp: Option<int>) => PollTemp(before, temp, status, online)))
  }

  function PollTemp(before: int, temp: Option<int>, status: int, online: int): Prog {
    if temp.None? then PollChanged(before, status, online)
    else Get(ThermalState, th =>
      Set(ThermalState, Severity(NextThermal(ThermalOf(th), temp.value)), PollChanged(before, status, online)))
  }

  function PollChanged(before: int, status: int, online: int): Prog {
    Get(ThermalState, th =>
      if th == before then PollRecover(status, online) else ConfigureCharging(_ => PollRestatus(online)))
  }

  function PollRestatus(online: int): Prog {
    GetStatus(st => PollRecover(st, online))
  }

  function PollRecover(status: int, online: int): Prog {
    if online <= 0 || status != NOT_CHARGING then PollOnline(online)
    else Get(DirectCharging, direct =>
      if direct != 0 then PollOnline(online)
      else Get(ThermalState, th => if ThermalOf(th) == Stop then PollOnline(online) else PollReopen(online)))
  }

  function PollReopen(online: int): Prog {
    Read(Cntl1, (c: Option<bv8>) =>
      if c.None? || c.value & 0x08 != 0 then PollOnline(online)
      else ConfigureCharging(r => PollReopened(r, online)))
  }

  function PollReopened(ret: int, online: int): Prog {
    if ret != 0 then PollOnline(online) else GetStatus(_ => PollOnline(online))
  }

  // The read-modify-write of CNTL1 here holds no lock.
  function PollOnline(online: int): Prog {
    if online < 0 then Done(0)
    else Get(LastOnline, last =>
      if (online != 0) == (last != 0) then Done(0)
      else Set(LastOnline, online,
        if online == 0 then UpdateBits(Cntl1, 0x08, 0, _ => Done(0)) else Done(0)))
  }

  // The power-supply property reads that reach the gauge or the flags.
  function ReadProperty(which: nat): Prog {
    if which == 0 then GetStatus(v => Done(v))
    else if which == 1 then GetCapacity(v => Done(v))
    else if which == 2 then GetTemp((v: Option<int>) => Done(if v.None? then EIO else v.value))
    else if which == 3 then GetOnline(v => Done(v))
    else GetUsbType(v => Done(v))
  }

  datatype Routine =
    | RSetPdContract(mv: nat, ma: nat) | RSetDirectCharge(active: bool) | RSetOtg(on: bool, otgMa: bv8)
    | RIsOtgActive | RFastChargeEnabled | RFastChargeStore(enabled: bool) | RPollWork | RReadProperty(which: nat)

  function Body(r: Routine): Prog {
    match r
    case RSetPdContract(mv, ma) => SetPdContract(mv, ma)
    case RSetDirectCharge(active) => SetDirectCharge(active)
    case RSetOtg(on, otgMa) => SetOtg(on, otgMa)
    case RIsOtgActive => IsOtgActive()
    case RFastChargeEnabled => FastChargeEnabled()
    case RFastChargeStore(enabled) => FastChargeStore(enabled)
    case RPollWork => PollWork()
    case RReadProperty(which) => ReadProperty(which)
  }
}
