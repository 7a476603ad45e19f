/**
 * What one call of the battery driver leads to, run to its end against readings and a
 * wire that stay as they are during the call: final state and return code.
 */
module Sm5714Outcome {
  import opened Numbers
  import opened Wrappers
  import opened Sm5714Codes
  import opened Sm5714Machine
  import opened Sm5714Battery

  /** Running a call. */

  // What each sensor reads, if it answers, and which register transfers go through.
  datatype World = World(sense: Sensor -> Option<int>, canRead: Reg -> bool, canWrite: Reg -> bool)

  function Run(n: nat, p: Prog, sh: Shared, w: World): Option<(Shared, int)>
    decreases n
  {
    if p.Done? then Some((sh, p.ret))
    else if n == 0 then None
    else match p
      case Lock(_, next) => Run(n - 1, next, sh, w)
      case Unlock(_, next) => Run(n - 1, next, sh, w)
      case Read(r, f) => Run(n - 1, f(if w.canRead(r) then Some(sh.RegVal(r)) else None), sh, w)
      case Write(r, v, f) => Run(n - 1, f(w.canWrite(r)), if w.canWrite(r) then sh.WithReg(r, v) else sh, w)
      case Sense(source, f) => Run(n - 1, f(w.sense(source)), sh, w)
      case Get(fd, k) => Run(n - 1, k(sh.FieldVal(fd)), sh, w)
      case Set(fd, v, next) => Run(n - 1, next, sh.WithField(fd, v), w)
  }

  // Within n accesses p ends in state out with code ret.
  predicate Ends(n: nat, p: Prog, sh: Shared, w: World, out: Shared, ret: int) {
    Run(n, p, sh, w) == Some((out, ret))
  }

  lemma {:induction false} EndsMore(n: nat, m: nat, p: Prog, sh: Shared, w: World, out: Shared, ret: int)
    requires Ends(n, p, sh, w, out, ret) && n <= m
    ensures Ends(m, p, sh, w, out, ret)
    decreases n
  {
    match p
    case Done(_) =>
    case Lock(_, next) => EndsMore(n - 1, m - 1, next, sh, w, out, ret);
    case Unlock(_, next) => EndsMore(n - 1, m - 1, next, sh, w, out, ret);
    case Read(r, f) => EndsMore(n - 1, m - 1, f(if w.canRead(r) then Some(sh.RegVal(r)) else None), sh, w, out, ret);
    case Write(r, v, f) =>
      EndsMore(n - 1, m - 1, f(w.canWrite(r)), if w.canWrite(r) then sh.WithReg(r, v) else sh, w, out, ret);
    case Sense(source, f) => EndsMore(n - 1, m - 1, f(w.sense(source)), sh, w, out, ret);
    case Get(fd, k) => EndsMore(n - 1, m - 1, k(sh.FieldVal(fd)), sh, w, out, ret);
    case Set(fd, v, next) => EndsMore(n - 1, m - 1, next, sh.WithField(fd, v), w, out, ret);
  }

  // One access.
  function Next(p: Prog, sh: Shared, w: World): (Prog, Shared)
    requires !p.Done?
  {
    match p
    case Lock(_, next) => (next, sh)
    case Unlock(_, next) => (next, sh)
    case Read(r, f) => (f(if w.canRead(r) then Some(sh.RegVal(r)) else None), sh)
    case Write(r, v, f) => (f(w.canWrite(r)), if w.canWrite(r) then sh.WithReg(r, v) else sh)
    case Sense(source, f) => (f(w.sense(source)), sh)
    case Get(fd, k) => (k(sh.FieldVal(fd)), sh)
    case Set(fd, v, next) => (next, sh.WithField(fd, v))
  }

  lemma StepEnds(n: nat, p: Prog, sh: Shared, w: World, out: Shared, ret: int)
    requires !p.Done? && Ends(n, Next(p, sh, w).0, Next(p, sh, w).1, w, out, ret)
    ensures Ends(n + 1, p, sh, w, out, ret)
  {
  }

  // Every register transfer goes through.
  ghost predicate Wired(w: World) { forall r: Reg :: w.canRead(r) && w.canWrite(r) }

  /** Register updates. */

  // The bits outside the mask stay, those inside are val's.
  function Merged(was: bv8, mask: bv8, val: bv8): (v: bv8)
    ensures v & mask == val & mask && v & !mask == was & !mask
  {
    (was & !mask) | (val & mask)
  }

  // Result of one update of a register's field.
  function Updated(sh: Shared, w: World, reg: Reg, mask: bv8, val: bv8): (Shared, int) {
    var v := Merged(sh.RegVal(reg), mask, val);
    if !w.canRead(reg) then (sh, -5)
    else if v == sh.RegVal(reg) || w.canWrite(reg) then (sh.WithReg(reg, v), 0)
    else (sh, -5)
  }

  lemma UpdateEnds(n: nat, reg: Reg, mask: bv8, val: bv8, k: int -> Prog, sh: Shared, w: World, out: Shared, ret: int)
    requires var u := Updated(sh, w, reg, mask, val); Ends(n, k(u.1), u.0, w, out, ret)
    ensures Ends(n + 2, UpdateBits(reg, mask, val, k), sh, w, out, ret)
  {
    hide Ends, Run, Merge, Merged;
    var v := Merged(sh.RegVal(reg), mask, val);
    MergeIsMerged(sh.RegVal(reg), mask, val);
    if w.canRead(reg) {
      UpdateToEnds(n, reg, v, k, sh, w, out, ret);
    } else {
      EndsMore(n, n + 1, k(-5), sh, w, out, ret);
    }
    StepEnds(n + 1, UpdateBits(reg, mask, val, k), sh, w, out, ret);
  }

  lemma UpdateToEnds(n: nat, reg: Reg, v: bv8, k: int -> Prog, sh: Shared, w: World, out: Shared, ret: int)
    requires if v == sh.RegVal(reg) || w.canWrite(reg) then Ends(n, k(0), sh.WithReg(reg, v), w, out, ret)
             else Ends(n, k(-5), sh, w, out, ret)
    ensures Ends(n + 1, UpdateTo(reg, sh.RegVal(reg), v, k), sh, w, out, ret)
  {
    hide Ends, Run;
    var was := sh.RegVal(reg);
    if v == was {
      SameReg(sh, reg);
      EndsMore(n, n + 1, k(0), sh, w, out, ret);
    } else {
      StepEnds(n, UpdateTo(reg, was, v, k), sh, w, out, ret);
    }
  }

  lemma MergeIsMerged(was: bv8, mask: bv8, val: bv8)
    ensures Merge(was, mask, val) == Merged(was, mask, val)
  {
  }

  /** Readings. */

  // Fuel-gauge temperature word: sign and magnitude.
  function GaugeIn(w: World): Option<int> {
    if w.sense(FgSelect) == None || w.sense(FgData) == None then None else Some(FgTemp(w.sense(FgData).value))
  }

  // The pack thermistor from -20 to 90 degrees, else the gauge.
  function TempIn(w: World): Option<int> {
    if w.sense(Thermistor).Some? && -200 <= RoundClosest100(w.sense(Thermistor).value) <= 900
    then Some(RoundClosest100(w.sense(Thermistor).value))
    else GaugeIn(w)
  }

  lemma GaugeEnds(n: nat, k: Option<int> -> Prog, sh: Shared, w: World, out: Shared, ret: int)
    requires Ends(n, k(GaugeIn(w)), sh, w, out, ret)
    ensures Ends(n + 4, GaugeTemp(k), sh, w, out, ret)
  {
    var f := (raw: Option<int>) => k(if raw.None? then None else Some(FgTemp(raw.value)));
    SramEnds(n, f, sh, w, out, ret);
  }

  function SramIn(w: World): Option<int> { if w.sense(FgSelect) == None then None else w.sense(FgData) }

  lemma SramEnds(n: nat, k: Option<int> -> Prog, sh: Shared, w: World, out: Shared, ret: int)
    requires Ends(n, k(SramIn(w)), sh, w, out, ret)
    ensures Ends(n + 4, FgReadSram(k), sh, w, out, ret)
  {
    EndsMore(n, n + 1, k(SramIn(w)), sh, w, out, ret);
    var sel := FgReadSram(k).next;
    var rest := sel.onSense(w.sense(FgSelect));
    assert Ends(n + 2, rest, sh, w, out, ret) by {
      if w.sense(FgSelect).Some? {
        assert rest.Sense? && rest.onSense(w.sense(FgData)) == Unlock(Sram, k(w.sense(FgData)));
        assert Ends(n + 1, rest.onSense(w.sense(FgData)), sh, w, out, ret);
      }
    }
    assert Ends(n + 3, sel, sh, w, out, ret);
  }

  lemma TempEnds(n: nat, k: Option<int> -> Prog, sh: Shared, w: World, out: Shared, ret: int)
    requires Ends(n, k(TempIn(w)), sh, w, out, ret)
    ensures Ends(n + 5, GetTemp(k), sh, w, out, ret)
  {
    var rest := GetTemp(k).onSense(w.sense(Thermistor));
    if w.sense(Thermistor).Some? && -200 <= RoundClosest100(w.sense(Thermistor).value) <= 900 {
      EndsMore(n, n + 4, k(TempIn(w)), sh, w, out, ret);
    } else {
      GaugeEnds(n, k, sh, w, out, ret);
    }
    assert Ends(n + 4, rest, sh, w, out, ret);
  }

  // Bit 0 of STATUS1: 1 for a source on VBUS, 0 for none, -5 for a failed read.
  function RawOnline(w: World): int {
    match w.sense(Status1) case None => -5 case Some(v) => v % 2
  }

  lemma RawOnlineEnds(n: nat, k: int -> Prog, sh: Shared, w: World, out: Shared, ret: int)
    requires Ends(n, k(RawOnline(w)), sh, w, out, ret)
    ensures Ends(n + 1, GetOnlineRaw(k), sh, w, out, ret)
  {
    OddBit(w);
    assert GetOnlineRaw(k).onSense(w.sense(Status1)) == k(RawOnline(w));
  }

  lemma OddBit(w: World)
    ensures w.sense(Status1).Some? ==> RawOnline(w) == if Bit(w.sense(Status1).value, 1) then 1 else 0
  {
  }

  // No source counts as one while the tablet itself drives VBUS.
  function OnlineIn(sh: Shared, w: World): int { if sh.otgActive != 0 then 0 else RawOnline(w) }

  lemma OnlineEnds(n: nat, k: int -> Prog, sh: Shared, w: World, out: Shared, ret: int)
    requires Ends(n, k(OnlineIn(sh, w)), sh, w, out, ret)
    ensures Ends(n + 2, GetOnline(k), sh, w, out, ret)
  {
    if sh.otgActive != 0 {
      EndsMore(n, n + 1, k(0), sh, w, out, ret);
    } else {
      RawOnlineEnds(n, k, sh, w, out, ret);
    }
  }

  datatype Source = NoSource | Contracted | Cdp | Sdp | Dcp | Unclear

  // DEVICE_TYPE1: bit 3 a charging downstream port, bits 0 and 1 a standard one, any
  // other bit a dedicated charger.
  function PortType(t: int): Source {
    if t / 8 % 2 == 1 then Cdp
    else if t % 4 != 0 then Sdp
    else if t % 256 != 0 then Dcp
    else Unclear
  }

  // None for a failed read.
  function SourceIn(sh: Shared, w: World): Option<Source> {
    if OnlineIn(sh, w) < 0 then None
    else if OnlineIn(sh, w) == 0 then Some(NoSource)
    else if sh.typecMv > 5000 then Some(Contracted)
    else match w.sense(MuicType) case None => None case Some(t) => Some(PortType(t))
  }

  // POWER_SUPPLY_USB_TYPE_*
  function TypeCode(s: Option<Source>): int {
    match s
    case None => -5
    case Some(NoSource) => 0
    case Some(Unclear) => 0
    case Some(Sdp) => 1
    case Some(Dcp) => 2
    case Some(Cdp) => 3
    case Some(Contracted) => 6
  }

  lemma PortTypeCode(t: int)
    requires 0 <= t < 256
    ensures MuicUsbType(t) == TypeCode(Some(PortType(t)))
  {
    EightBits(t);
  }

  lemma EightBits(t: int)
    requires 0 <= t < 256
    ensures t == t % 2 + 2 * (t / 2 % 2) + 4 * (t / 4 % 2) + 8 * (t / 8 % 2) + 16 * (t / 16 % 2) + 32 * (t / 32 % 2)
                 + 64 * (t / 64 % 2) + 128 * (t / 128 % 2)
    ensures t % 4 == t % 2 + 2 * (t / 2 % 2)
  {
    LowBits(t);
    LowBits(t / 8);
    EighthOf(t, 2);
    EighthOf(t, 4);
    EighthOf(t, 8);
    var h := t / 64;
    assert h == h % 2 + 2 * (h / 2 % 2);
    assert t / 64 / 2 == t / 128;
  }

  lemma LowBits(t: int)
    requires 0 <= t
    ensures t == t % 2 + 2 * (t / 2 % 2) + 4 * (t / 4 % 2) + 8 * (t / 8) && t % 4 == t % 2 + 2 * (t / 2 % 2)
  {
    var a := t / 2;
    var b := a / 2;
    assert b == t / 4 && b / 2 == t / 8;
  }

  lemma EighthOf(t: int, d: int)
    requires 0 <= t && (d == 2 || d == 4 || d == 8)
    ensures t / 8 / d == t / (8 * d)
  {
    var q := t / (8 * d);
    var r := t - q * (8 * d);
    if d == 2 {
      ModUnique(t / 8, 2, q, r / 8);
    } else if d == 4 {
      ModUnique(t / 8, 4, q, r / 8);
    } else {
      ModUnique(t / 8, 8, q, r / 8);
    }
  }

  lemma UsbTypeEnds(n: nat, k: int -> Prog, sh: Shared, w: World, out: Shared, ret: int)
    requires w.sense(MuicType).Some? ==> 0 <= w.sense(MuicType).value < 256
    requires Ends(n, k(TypeCode(SourceIn(sh, w))), sh, w, out, ret)
    ensures Ends(n + 4, GetUsbType(k), sh, w, out, ret)
  {
    var online, code := OnlineIn(sh, w), TypeCode(SourceIn(sh, w));
    EndsMore(n, n + 1, k(code), sh, w, out, ret);
    EndsMore(n, n + 2, k(code), sh, w, out, ret);
    if online > 0 {
      if sh.typecMv <= 5000 {
        if w.sense(MuicType).Some? { PortTypeCode(w.sense(MuicType).value); }
        assert UsbTypeAt(sh.typecMv, k).onSense(w.sense(MuicType)) == k(code);
      }
      assert Ends(n + 1, UsbTypeAt(sh.typecMv, k), sh, w, out, ret);
    }
    assert Ends(n + 2, UsbTypeWhen(online, k), sh, w, out, ret);
    OnlineEnds(n + 2, o => UsbTypeWhen(o, k), sh, w, out, ret);
  }

  /** Charger programming. */

  function ThermalIn(sh: Shared, w: World): Thermal {
    match TempIn(w)
    case None => ThermalOf(sh.thermalState)
    case Some(t) => NextThermal(ThermalOf(sh.thermalState), t)
  }

  // The input budget: the contract's current up to 3 A, above 5 V without the switch up
  // to 1.66 A; without a contract what the port type allows.
  function InputMa(fast: bool, mv: int, ma: int, s: Source): (r: nat)
    ensures 500 <= r <= 3000
  {
    if mv >= 5000 && ma >= 500 then Min(ma, if mv > 5000 && !fast then 1660 else 3000)
    else match s case Dcp => 1800 case Cdp => 1500 case _ => 500
  }

  // The battery's budget, at most 2.1 A in the warm band.
  function PackMa(fast: bool, mv: int, ma: int, s: Source, th: Thermal): (r: nat)
    ensures 500 <= r <= 3150
  {
    var cool :=
      if mv >= 5000 && ma >= 500 then if fast then 3150 else 2800
      else match s case Dcp => 2200 case Cdp => 1500 case _ => 500;
    if th == Reduced then Min(cool, 2100) else cool
  }

  function InputCode(ma: nat): bv8 { InputCurrentReg(ma) as bv8 }
  function PackCode(ma: nat): bv8 { FastCurrentReg(ma) as bv8 }
  function FloatCode(uv: nat): bv8 { BatRegOffset(uv) as bv8 }

  // 500 mA, the charge current, the float voltage, Q4, the input limit; the first lost
  // transfer ends it there.
  function Programmed(sh: Shared, w: World, inputMa: nat, packMa: nat): (Shared, int) {
    if !w.canWrite(VbusCntl) then (sh, -5)
    else
      var low := sh.(vbusCntl := InputCode(500));
      if !w.canWrite(ChgCntl2) then (low, -5)
      else Floated(low.(chgCntl2 := PackCode(packMa)), w, inputMa)
  }

  function Floated(sh: Shared, w: World, inputMa: nat): (Shared, int) {
    var float := if sh.floatUv <= 0 then (sh, 0) else Updated(sh, w, ChgCntl4, 0x3f, FloatCode(sh.floatUv));
    if float.1 != 0 then float else Closed(float.0, w, inputMa)
  }

  function Closed(sh: Shared, w: World, inputMa: nat): (Shared, int) {
    var closed := Updated(sh, w, Cntl1, 0x08, 0x08);
    if closed.1 != 0 then closed else (closed.0.(vbusCntl := InputCode(inputMa)), 0)
  }

  function Configured(sh: Shared, w: World): (Shared, int) {
    if sh.otgActive != 0 then (sh, -16)
    else match SourceIn(sh, w)
      case None => (sh, -5)
      case Some(s) =>
        var th := ThermalIn(sh, w);
        var warm := if TempIn(w).None? then sh else sh.(thermalState := Severity(th));
        if th == Stop then Updated(warm, w, Cntl1, 0x08, 0)
        else Programmed(warm, w, InputMa(sh.fastCharge != 0, sh.typecMv, sh.typecMa, s),
                        PackMa(sh.fastCharge != 0, sh.typecMv, sh.typecMa, s, th))
  }

  // The driver's own table is the one above.
  lemma BudgetsAre(fast: bool, mv: int, ma: int, s: Source, th: Thermal)
    ensures var b := Budgets(fast && mv >= 5000 && ma >= 500, mv, ma, TypeCode(Some(s)), th);
      b.0 == InputMa(fast, mv, ma, s) && b.1 == PackMa(fast, mv, ma, s, th)
  {
  }

  lemma CloseEnds(n: nat, inputMa: nat, k: int -> Prog, sh: Shared, w: World, out: Shared, ret: int)
    requires w.canWrite(VbusCntl)
    requires var res := Closed(sh, w, inputMa); Ends(n, k(res.1), res.0, w, out, ret)
    ensures Ends(n + 4, CloseQ4(0, inputMa, k), sh, w, out, ret)
  {
    hide Ends, Run, Updated;
    var closed := Updated(sh, w, Cntl1, 0x08, 0x08);
    if closed.1 != 0 {
      StepEnds(n, ConfigureOut(closed.1, k), closed.0, w, out, ret);
      EndsMore(n + 1, n + 2, ConfigureOut(closed.1, k), closed.0, w, out, ret);
    } else {
      var last := closed.0.(vbusCntl := InputCode(inputMa));
      StepEnds(n, ConfigureOut(0, k), last, w, out, ret);
      StepEnds(n + 1, RaiseInput(0, inputMa, k), closed.0, w, out, ret);
    }
    UpdateEnds(n + 2, Cntl1, 0x08, 0x08, r => RaiseInput(r, inputMa, k), sh, w, out, ret);
  }

  lemma FloatEnds(n: nat, inputMa: nat, k: int -> Prog, sh: Shared, w: World, out: Shared, ret: int)
    requires w.canWrite(VbusCntl)
    requires var res := Floated(sh, w, inputMa); Ends(n, k(res.1), res.0, w, out, ret)
    ensures Ends(n + 7, SetFloatVoltage(r => CloseQ4(r, inputMa, k)), sh, w, out, ret)
  {
    hide UpdateBits, Closed, CloseQ4, Ends, Run, Updated, Next, SetFloatVoltage;
    var f := (r: int) => CloseQ4(r, inputMa, k);
    FloatStep(f, sh, w);
    if sh.floatUv <= 0 {
      CloseEnds(n, inputMa, k, sh, w, out, ret);
      EndsMore(n + 4, n + 6, f(0), sh, w, out, ret);
    } else {
      FloatToEnds(n, FloatCode(sh.floatUv), inputMa, k, sh, w, out, ret);
    }
    StepEnds(n + 6, SetFloatVoltage(f), sh, w, out, ret);
  }

  lemma FloatStep(k: int -> Prog, sh: Shared, w: World)
    ensures !SetFloatVoltage(k).Done?
    ensures Next(SetFloatVoltage(k), sh, w)
         == (if sh.floatUv <= 0 then k(0) else UpdateBits(ChgCntl4, 0x3f, FloatCode(sh.floatUv), k), sh)
  {
  }

  lemma FloatToEnds(n: nat, code: bv8, inputMa: nat, k: int -> Prog, sh: Shared, w: World, out: Shared, ret: int)
    requires w.canWrite(VbusCntl)
    requires
      var float := Updated(sh, w, ChgCntl4, 0x3f, code);
      var res := if float.1 != 0 then float else Closed(float.0, w, inputMa);
      Ends(n, k(res.1), res.0, w, out, ret)
    ensures Ends(n + 6, UpdateBits(ChgCntl4, 0x3f, code, r => CloseQ4(r, inputMa, k)), sh, w, out, ret)
  {
    hide UpdateBits, Closed, CloseQ4, Ends, Run, Updated;
    var f := (r: int) => CloseQ4(r, inputMa, k);
    var float := Updated(sh, w, ChgCntl4, 0x3f, code);
    if float.1 != 0 {
      FailedFloat(float.1, inputMa, k);
      StepEnds(n, ConfigureOut(float.1, k), float.0, w, out, ret);
      EndsMore(n + 1, n + 4, f(float.1), float.0, w, out, ret);
    } else {
      CloseEnds(n, inputMa, k, float.0, w, out, ret);
    }
    UpdateEnds(n + 4, ChgCntl4, 0x3f, code, f, sh, w, out, ret);
  }

  lemma FailedFloat(ret: int, inputMa: nat, k: int -> Prog)
    requires ret != 0
    ensures CloseQ4(ret, inputMa, k) == ConfigureOut(ret, k)
  {
  }

  lemma ProgramPackEnds(n: nat, inputMa: nat, packMa: nat, k: int -> Prog, sh: Shared, w: World, out: Shared, ret: int)
    requires w.canWrite(VbusCntl)
    requires
      var res := if !w.canWrite(ChgCntl2) then (sh, -5)
                 else Floated(sh.(chgCntl2 := PackCode(packMa)), w, inputMa);
      Ends(n, k(res.1), res.0, w, out, ret)
    ensures Ends(n + 8, ProgramPack(inputMa, packMa, k), sh, w, out, ret)
  {
    hide SetFloatVoltage, Floated, Ends, Run;
    if w.canWrite(ChgCntl2) {
      FloatEnds(n, inputMa, k, sh.(chgCntl2 := PackCode(packMa)), w, out, ret);
    } else {
      EndsMore(n, n + 6, k(-5), sh, w, out, ret);
      StepEnds(n + 6, ConfigureOut(EIO, k), sh, w, out, ret);
    }
    StepEnds(n + 7, ProgramPack(inputMa, packMa, k), sh, w, out, ret);
  }

  lemma ProgramEnds(n: nat, budget: (nat, nat), k: int -> Prog, sh: Shared, w: World, out: Shared, ret: int)
    requires var res := Programmed(sh, w, budget.0, budget.1); Ends(n, k(res.1), res.0, w, out, ret)
    ensures Ends(n + 9, Program(budget, k), sh, w, out, ret)
  {
    hide SetFloatVoltage, Floated, Ends, Run, ProgramPack;
    if w.canWrite(VbusCntl) {
      ProgramPackEnds(n, budget.0, budget.1, k, sh.(vbusCntl := InputCode(500)), w, out, ret);
    } else {
      EndsMore(n, n + 7, k(-5), sh, w, out, ret);
      StepEnds(n + 7, ConfigureOut(EIO, k), sh, w, out, ret);
    }
    StepEnds(n + 8, Program(budget, k), sh, w, out, ret);
  }

  lemma LimitsEnds(n: nat, s: Source, k: int -> Prog, sh: Shared, w: World, out: Shared, ret: int)
    requires
      var th := ThermalOf(sh.thermalState);
      var res := if th == Stop then Updated(sh, w, Cntl1, 0x08, 0)
                 else Programmed(sh, w, InputMa(sh.fastCharge != 0, sh.typecMv, sh.typecMa, s),
                                 PackMa(sh.fastCharge != 0, sh.typecMv, sh.typecMa, s, th));
      Ends(n, k(res.1), res.0, w, out, ret)
    ensures Ends(n + 10, ConfigureLimits(ThermalOf(sh.thermalState), sh.typecMv, sh.typecMa, TypeCode(Some(s)), k),
                 sh, w, out, ret)
  {
    hide Program, Programmed, Updated, Budgets, UpdateBits;
    var th := ThermalOf(sh.thermalState);
    var mv, ma, fast := sh.typecMv, sh.typecMa, sh.fastCharge != 0;
    BudgetsAre(fast, mv, ma, s, th);
    if th == Stop {
      var res := Updated(sh, w, Cntl1, 0x08, 0);
      assert Ends(n + 1, ConfigureOut(res.1, k), res.0, w, out, ret);
      UpdateEnds(n + 1, Cntl1, 0x08, 0, r => ConfigureOut(r, k), sh, w, out, ret);
      EndsMore(n + 3, n + 10, ConfigureLimits(th, mv, ma, TypeCode(Some(s)), k), sh, w, out, ret);
    } else {
      ProgramEnds(n, (InputMa(fast, mv, ma, s), PackMa(fast, mv, ma, s, th)), k, sh, w, out, ret);
      if !Contract(mv, ma) {
        EndsMore(n + 9, n + 10, ConfigureLimits(th, mv, ma, TypeCode(Some(s)), k), sh, w, out, ret);
      }
    }
  }

  lemma ConfigureThermalEnds(n: nat, s: Source, k: int -> Prog, sh: Shared, w: World, out: Shared, ret: int)
    requires sh.otgActive == 0 && SourceIn(sh, w) == Some(s)
    requires var res := Configured(sh, w); Ends(n, k(res.1), res.0, w, out, ret)
    ensures Ends(n + 12, ConfigureThermal(ThermalOf(sh.thermalState), TempIn(w), sh.typecMv, sh.typecMa,
                                          TypeCode(Some(s)), k),
                 sh, w, out, ret)
  {
    hide ConfigureLimits, Programmed, Updated, TempIn, NextThermal, Ends, Run, SourceIn;
    var mv, ma, code, was := sh.typecMv, sh.typecMa, TypeCode(Some(s)), ThermalOf(sh.thermalState);
    var temp, th := TempIn(w), ThermalIn(sh, w);
    var warm := if temp.None? then sh else sh.(thermalState := Severity(th));
    SeverityReads(th);
    LimitsEnds(n, s, k, warm, w, out, ret);
    if temp.None? {
      EndsMore(n + 10, n + 12, ConfigureLimits(was, mv, ma, code, k), sh, w, out, ret);
    } else {
      StepEnds(n + 10, ConfigureHotter(th, mv, ma, code, k), sh, w, out, ret);
      StepEnds(n + 11, ConfigureThermal(was, temp, mv, ma, code, k), sh, w, out, ret);
    }
  }

  lemma ConfigureForEnds(n: nat, k: int -> Prog, sh: Shared, w: World, out: Shared, ret: int)
    requires sh.otgActive == 0
    requires var res := Configured(sh, w); Ends(n, k(res.1), res.0, w, out, ret)
    ensures Ends(n + 18, ConfigureFor(sh.typecMv, sh.typecMa, TypeCode(SourceIn(sh, w)), k), sh, w, out, ret)
  {
    hide ConfigureThermal, TempIn, Ends, Run, SourceIn, GetTemp;
    var mv, ma, src := sh.typecMv, sh.typecMa, SourceIn(sh, w);
    if src.None? {
      StepEnds(n, ConfigureOut(-5, k), sh, w, out, ret);
      EndsMore(n + 1, n + 18, ConfigureOut(-5, k), sh, w, out, ret);
    } else {
      var was := ThermalOf(sh.thermalState);
      ConfigureThermalEnds(n, src.value, k, sh, w, out, ret);
      TempEnds(n + 12, (t: Option<int>) => ConfigureThermal(was, t, mv, ma, TypeCode(src), k), sh, w, out, ret);
      StepEnds(n + 17, ConfigureFor(mv, ma, TypeCode(src), k), sh, w, out, ret);
    }
  }

  lemma SeverityReads(th: Thermal)
    ensures ThermalOf(Severity(th)) == th
  {
  }

  // Any readings the hardware can give.
  predicate Real(w: World) { w.sense(MuicType).Some? ==> 0 <= w.sense(MuicType).value < 256 }

  lemma ConfigureEnds(n: nat, k: int -> Prog, sh: Shared, w: World, out: Shared, ret: int)
    requires Real(w)
    requires var res := Configured(sh, w); Ends(n, k(res.1), res.0, w, out, ret)
    ensures Ends(n + 26, ConfigureCharging(k), sh, w, out, ret)
  {
    hide Configured, ConfigureFor, GetUsbType;
    var p := ConfigureCharging(k).next;
    if sh.otgActive != 0 {
      BusyConfigured(sh, w);
      EndsMore(n, n + 23, k(-16), sh, w, out, ret);
      assert Ends(n + 24, ConfigureOut(-16, k), sh, w, out, ret);
    } else {
      var mv, ma := sh.typecMv, sh.typecMa;
      ConfigureForEnds(n, k, sh, w, out, ret);
      UsbTypeEnds(n + 18, t => ConfigureFor(mv, ma, t, k), sh, w, out, ret);
      var f := p.onGet(0).onGet(mv);
      assert f.onGet(ma) == GetUsbType(t => ConfigureFor(mv, ma, t, k));
      assert Ends(n + 23, f, sh, w, out, ret);
      assert Ends(n + 24, p.onGet(0), sh, w, out, ret);
    }
    assert Ends(n + 25, p, sh, w, out, ret);
  }

  lemma BusyConfigured(sh: Shared, w: World)
    requires sh.otgActive != 0
    ensures Configured(sh, w) == (sh, -16)
  {
  }

  /** The D-/D+ switch. */

  // BC1.2 off, then the USB path by hand; a path that cannot be set gives BC1.2 back.
  function PathOn(sh: Shared, w: World): (Shared, int) {
    if !w.canRead(MuicCntl) || !w.canWrite(MuicCntl) || !w.canRead(MuicSw) || !w.canWrite(MuicSw) then (sh, -5)
    else (sh.(muicCntl := sh.muicCntl | 0x02, muicSw := (sh.muicSw & 0x40) | 0x89), 0)
  }

  function PathOff(sh: Shared, w: World): (Shared, int) {
    if !w.canRead(MuicSw) || !w.canWrite(MuicSw) then (sh, -5)
    else
      var loose := sh.(muicSw := sh.muicSw & 0x40);
      if !w.canRead(MuicCntl) || !w.canWrite(MuicCntl) then (loose, -5)
      else (loose.(muicCntl := sh.muicCntl & 0xfd), 0)
  }

  lemma PathBits(v: bv8)
    ensures (v & !0xbf) | 0x80 | 0x09 == (v & 0x40) | 0x89
    ensures v & !0xbf == v & 0x40 && v & !0x02 == v & 0xfd
  {
  }

  // The accesses of the way on, one by one.
  lemma OnSteps(k: int -> Prog, cntl: bv8, v: bv8, sh: Shared, w: World)
    ensures Next(MuicOn(k), sh, w)
         == (if w.canRead(MuicCntl) then MuicOnBc12(sh.muicCntl, sh.muicCntl | 0x02, k) else k(-5), sh)
    ensures Next(MuicOnBc12(cntl, v, k), sh, w)
         == if w.canWrite(MuicCntl) then (MuicOnPath(cntl, k), sh.(muicCntl := v)) else (k(-5), sh)
    ensures Next(MuicOnPath(cntl, k), sh, w)
         == (if w.canRead(MuicSw) then MuicOnSwitch(cntl, (sh.muicSw & 0x40) | 0x89, k) else MuicRestore(cntl, k), sh)
    ensures Next(MuicOnSwitch(cntl, v, k), sh, w)
         == if w.canWrite(MuicSw) then (k(0), sh.(muicSw := v)) else (MuicRestore(cntl, k), sh)
    ensures Next(MuicRestore(cntl, k), sh, w) == (k(-5), if w.canWrite(MuicCntl) then sh.(muicCntl := cntl) else sh)
  {
    PathBits(sh.muicSw);
  }

  // And of the way off.
  lemma OffSteps(k: int -> Prog, v: bv8, sh: Shared, w: World)
    ensures Next(MuicOff(k), sh, w) == (if w.canRead(MuicSw) then MuicOffSwitch(sh.muicSw & 0x40, k) else k(-5), sh)
    ensures Next(MuicOffSwitch(v, k), sh, w)
         == if w.canWrite(MuicSw) then (MuicOffBc12(k), sh.(muicSw := v)) else (k(-5), sh)
  {
    hide MuicOffBc12;
    PathBits(sh.muicSw);
  }

  lemma Bc12Steps(k: int -> Prog, v: bv8, sh: Shared, w: World)
    ensures Next(MuicOffBc12(k), sh, w)
         == (if w.canRead(MuicCntl) then MuicOffTo(sh.muicCntl & 0xfd, k) else k(-5), sh)
    ensures Next(MuicOffTo(v, k), sh, w) == if w.canWrite(MuicCntl) then (k(0), sh.(muicCntl := v)) else (k(-5), sh)
  {
    PathBits(sh.muicCntl);
  }

  lemma NotDone(k: int -> Prog, cntl: bv8, v: bv8)
    ensures !MuicOn(k).Done? && !MuicOnBc12(cntl, v, k).Done? && !MuicOnPath(cntl, k).Done?
    ensures !MuicOnSwitch(cntl, v, k).Done? && !MuicRestore(cntl, k).Done?
    ensures !MuicOff(k).Done? && !MuicOffSwitch(v, k).Done? && !MuicOffBc12(k).Done? && !MuicOffTo(v, k).Done?
  {
  }

  lemma PathOnEnds(n: nat, k: int -> Prog, sh: Shared, w: World, out: Shared, ret: int)
    requires var res := PathOn(sh, w); Ends(n, k(res.1), res.0, w, out, ret)
    ensures Ends(n + 5, MuicOn(k), sh, w, out, ret)
  {
    hide Ends, Run, Next, MuicOn, MuicOnBc12, MuicOnPath;
    var cntl := sh.muicCntl;
    var v := cntl | 0x02;
    NotDone(k, cntl, v);
    OnSteps(k, cntl, v, sh, w);
    if !w.canRead(MuicCntl) {
      EndsMore(n, n + 4, k(-5), sh, w, out, ret);
    } else {
      if !w.canWrite(MuicCntl) {
        EndsMore(n, n + 3, k(-5), sh, w, out, ret);
      } else {
        PathOnRest(n, v, k, sh, w, out, ret);
      }
      StepEnds(n + 3, MuicOnBc12(cntl, v, k), sh, w, out, ret);
    }
    StepEnds(n + 4, MuicOn(k), sh, w, out, ret);
  }

  lemma PathOnRest(n: nat, v: bv8, k: int -> Prog, sh: Shared, w: World, out: Shared, ret: int)
    requires v == sh.muicCntl | 0x02 && w.canRead(MuicCntl) && w.canWrite(MuicCntl)
    requires var res := PathOn(sh, w); Ends(n, k(res.1), res.0, w, out, ret)
    ensures Ends(n + 3, MuicOnPath(sh.muicCntl, k), sh.(muicCntl := v), w, out, ret)
  {
    hide Ends, Run, Next, MuicOnPath, MuicOnSwitch, MuicRestore;
    var cntl, off := sh.muicCntl, sh.(muicCntl := v);
    var usb := (sh.muicSw & 0x40) | 0x89;
    NotDone(k, cntl, usb);
    OnSteps(k, cntl, usb, off, w);
    GivenBack(sh, v);
    if !w.canRead(MuicSw) {
      StepEnds(n, MuicRestore(cntl, k), off, w, out, ret);
      EndsMore(n + 1, n + 2, MuicRestore(cntl, k), off, w, out, ret);
    } else {
      if !w.canWrite(MuicSw) {
        StepEnds(n, MuicRestore(cntl, k), off, w, out, ret);
      } else {
        EndsMore(n, n + 1, k(0), off.(muicSw := usb), w, out, ret);
      }
      StepEnds(n + 1, MuicOnSwitch(cntl, usb, k), off, w, out, ret);
    }
    StepEnds(n + 2, MuicOnPath(cntl, k), off, w, out, ret);
  }

  lemma GivenBack(sh: Shared, v: bv8)
    ensures sh.(muicCntl := v).(muicCntl := sh.muicCntl) == sh
  {
  }

  lemma PathOffEnds(n: nat, k: int -> Prog, sh: Shared, w: World, out: Shared, ret: int)
    requires var res := PathOff(sh, w); Ends(n, k(res.1), res.0, w, out, ret)
    ensures Ends(n + 4, MuicOff(k), sh, w, out, ret)
  {
    hide Ends, Run, Next, MuicOff, MuicOffSwitch, MuicOffBc12;
    var v := sh.muicSw & 0x40;
    NotDone(k, v, v);
    OffSteps(k, v, sh, w);
    if !w.canRead(MuicSw) {
      EndsMore(n, n + 3, k(-5), sh, w, out, ret);
    } else {
      if !w.canWrite(MuicSw) {
        EndsMore(n, n + 2, k(-5), sh, w, out, ret);
      } else {
        Bc12Ends(n, k, sh.(muicSw := v), w, out, ret);
      }
      StepEnds(n + 2, MuicOffSwitch(v, k), sh, w, out, ret);
    }
    StepEnds(n + 3, MuicOff(k), sh, w, out, ret);
  }

  lemma Bc12Ends(n: nat, k: int -> Prog, sh: Shared, w: World, out: Shared, ret: int)
    requires if w.canRead(MuicCntl) && w.canWrite(MuicCntl)
             then Ends(n, k(0), sh.(muicCntl := sh.muicCntl & 0xfd), w, out, ret)
             else Ends(n, k(-5), sh, w, out, ret)
    ensures Ends(n + 2, MuicOffBc12(k), sh, w, out, ret)
  {
    hide Ends, Run, Next, MuicOffBc12, MuicOffTo;
    var v := sh.muicCntl & 0xfd;
    NotDone(k, v, v);
    Bc12Steps(k, v, sh, w);
    if !w.canRead(MuicCntl) {
      EndsMore(n, n + 1, k(-5), sh, w, out, ret);
    } else {
      StepEnds(n, MuicOffTo(v, k), sh, w, out, ret);
    }
    StepEnds(n + 1, MuicOffBc12(k), sh, w, out, ret);
  }

  /** The boost. */

  // 5.1 V is setting 6 in bits 3:0, the current limit in bits 7:6.
  function Setting(otgMa: bv8): bv8 { 6 | ((otgMa & 3) << 6) }

  // Path, Q4, setting, boost; the first failure takes the path back.
  function Boosted(sh: Shared, w: World, otgMa: bv8): (Shared, int) {
    var path := PathOn(sh, w);
    if path.1 != 0 then (PathOff(path.0, w).0, path.1)
    else
      var open := Updated(path.0, w, Cntl1, 0x08, 0);
      if open.1 != 0 then (PathOff(open.0, w).0, open.1)
      else
        var tuned := Updated(open.0, w, BstCntl1, 0xcf, Setting(otgMa));
        if tuned.1 != 0 then (PathOff(tuned.0, w).0, tuned.1)
        else
          var up := Updated(tuned.0, w, Cntl2, 0x0f, 7);
          if up.1 != 0 then (PathOff(up.0, w).0, up.1) else (up.0.(otgActive := 1), 0)
  }

  function OtgOnResult(sh: Shared, w: World, otgMa: bv8): (Shared, int) {
    if sh.directCharging != 0 then (sh, -16)
    else match w.sense(Status1)
      case None => (sh, -5)
      case Some(v) => if v % 2 != 0 then (sh, -16) else Boosted(sh, w, otgMa)
  }

  function OtgOffResult(sh: Shared, w: World): (Shared, int) {
    var down := Updated(sh, w, Cntl2, 0x0f, 5);
    if down.1 != 0 then down
    else
      var off := PathOff(down.0.(otgActive := 0), w);
      if off.1 != 0 || RawOnline(w) <= 0 then off else Configured(off.0, w)
  }

  function OtgResult(sh: Shared, w: World, active: bool, otgMa: bv8): (Shared, int) {
    if w.sense(Primary) == None then (sh, -517)
    else if active == (sh.otgActive != 0) then (sh, 0)
    else if active then OtgOnResult(sh, w, otgMa)
    else OtgOffResult(sh, w)
  }

  lemma UndoEnds(fail: int, sh: Shared, w: World)
    ensures Ends(6, OtgUndo(fail), sh, w, PathOff(sh, w).0, fail)
  {
    hide Ends, Run;
    var out := PathOff(sh, w).0;
    DoneEnds(fail, out, w);
    StepEnds(0, Unlock(Global, Done(fail)), out, w, out, fail);
    StepEnds(1, Unlock(Chg, Unlock(Global, Done(fail))), out, w, out, fail);
    PathOffEnds(2, _ => Unlock(Chg, Unlock(Global, Done(fail))), sh, w, out, fail);
  }

  lemma DoneEnds(ret: int, sh: Shared, w: World)
    ensures Ends(0, Done(ret), sh, w, sh, ret)
  {
  }

  // The last two steps of the way up.
  function PoweredUp(sh: Shared, w: World): (Shared, int) {
    var up := Updated(sh, w, Cntl2, 0x0f, 7);
    if up.1 != 0 then (PathOff(up.0, w).0, up.1) else (up.0.(otgActive := 1), 0)
  }

  lemma PowerEnds(sh: Shared, w: World)
    ensures var res := PoweredUp(sh, w); Ends(8, OtgBoost(), sh, w, res.0, res.1)
  {
    hide Ends, Run, Updated;
    var up, res := Updated(sh, w, Cntl2, 0x0f, 7), PoweredUp(sh, w);
    if up.1 != 0 {
      UndoEnds(up.1, up.0, w);
    } else {
      DoneEnds(0, res.0, w);
      StepEnds(0, Unlock(Global, Done(0)), res.0, w, res.0, 0);
      StepEnds(1, Unlock(Chg, Unlock(Global, Done(0))), res.0, w, res.0, 0);
      StepEnds(2, OtgBoosted(0), up.0, w, res.0, 0);
      EndsMore(3, 6, OtgBoosted(0), up.0, w, res.0, 0);
    }
    UpdateEnds(6, Cntl2, 0x0f, 7, r => OtgBoosted(r), sh, w, res.0, res.1);
  }

  function Tuned(sh: Shared, w: World, otgMa: bv8): (Shared, int) {
    var tuned := Updated(sh, w, BstCntl1, 0xcf, Setting(otgMa));
    if tuned.1 != 0 then (PathOff(tuned.0, w).0, tuned.1) else PoweredUp(tuned.0, w)
  }

  lemma SettingEnds(otgMa: bv8, sh: Shared, w: World)
    ensures var res := Tuned(sh, w, otgMa); Ends(10, OtgSetting(0, otgMa), sh, w, res.0, res.1)
  {
    hide Ends, Run, Updated, PoweredUp;
    var tuned, res := Updated(sh, w, BstCntl1, 0xcf, Setting(otgMa)), Tuned(sh, w, otgMa);
    assert BoostSetting(otgMa) == Setting(otgMa);
    if tuned.1 != 0 {
      UndoEnds(tuned.1, tuned.0, w);
      EndsMore(6, 8, OtgUndo(tuned.1), tuned.0, w, res.0, res.1);
    } else {
      PowerEnds(tuned.0, w);
    }
    UpdateEnds(8, BstCntl1, 0xcf, Setting(otgMa), r => OtgPower(r), sh, w, res.0, res.1);
  }

  function Opened(sh: Shared, w: World, otgMa: bv8): (Shared, int) {
    var open := Updated(sh, w, Cntl1, 0x08, 0);
    if open.1 != 0 then (PathOff(open.0, w).0, open.1) else Tuned(open.0, w, otgMa)
  }

  lemma OpenEnds(otgMa: bv8, sh: Shared, w: World)
    ensures var res := Opened(sh, w, otgMa); Ends(12, OtgOpenQ4(0, otgMa), sh, w, res.0, res.1)
  {
    hide Ends, Run, Updated, Tuned;
    var open, res := Updated(sh, w, Cntl1, 0x08, 0), Opened(sh, w, otgMa);
    if open.1 != 0 {
      UndoEnds(open.1, open.0, w);
      EndsMore(6, 10, OtgUndo(open.1), open.0, w, res.0, res.1);
    } else {
      SettingEnds(otgMa, open.0, w);
    }
    UpdateEnds(10, Cntl1, 0x08, 0, r => OtgSetting(r, otgMa), sh, w, res.0, res.1);
  }

  lemma BoostEnds(otgMa: bv8, sh: Shared, w: World)
    ensures var res := Boosted(sh, w, otgMa); Ends(17, MuicOn(r => OtgOpenQ4(r, otgMa)), sh, w, res.0, res.1)
  {
    hide Ends, Run, Updated, PathOn, PathOff;
    var path, res := PathOn(sh, w), Boosted(sh, w, otgMa);
    if path.1 != 0 {
      UndoEnds(path.1, path.0, w);
      EndsMore(6, 12, OtgUndo(path.1), path.0, w, res.0, res.1);
    } else {
      assert res == Opened(path.0, w, otgMa);
      OpenEnds(otgMa, path.0, w);
    }
    PathOnEnds(12, r => OtgOpenQ4(r, otgMa), sh, w, res.0, res.1);
  }

  // Unlock(Global, Done(r)) at the end of a call.
  lemma ReleaseEnds(n: nat, r: int, sh: Shared, w: World)
    requires n >= 1
    ensures Ends(n, Unlock(Global, Done(r)), sh, w, sh, r)
  {
    DoneEnds(r, sh, w);
    StepEnds(0, Unlock(Global, Done(r)), sh, w, sh, r);
    EndsMore(1, n, Unlock(Global, Done(r)), sh, w, sh, r);
  }

  lemma OtgOnEnds(otgMa: bv8, sh: Shared, w: World)
    ensures var res := OtgOnResult(sh, w, otgMa); Ends(20, OtgOn(otgMa), sh, w, res.0, res.1)
  {
    hide Ends, Run, Boosted;
    var res := OtgOnResult(sh, w, otgMa);
    ReleaseEnds(18, -16, sh, w);
    ReleaseEnds(19, -16, sh, w);
    ReleaseEnds(18, -5, sh, w);
    if sh.directCharging == 0 {
      if RawOnline(w) == 0 {
        BoostEnds(otgMa, sh, w);
        StepEnds(17, OtgOffline(0, otgMa), sh, w, res.0, res.1);
      }
      assert Ends(18, OtgOffline(RawOnline(w), otgMa), sh, w, res.0, res.1);
      RawOnlineEnds(18, online => OtgOffline(online, otgMa), sh, w, res.0, res.1);
    }
    StepEnds(19, OtgOn(otgMa), sh, w, res.0, res.1);
  }

  lemma OtgTailEnds(sh: Shared, w: World)
    requires Real(w)
    ensures var res := if RawOnline(w) <= 0 then (sh, 0) else Configured(sh, w);
      Ends(28, OtgOffTail(0), sh, w, res.0, res.1)
  {
    hide Ends, Run, Configured;
    var res := if RawOnline(w) <= 0 then (sh, 0) else Configured(sh, w);
    if RawOnline(w) > 0 {
      DoneEnds(res.1, res.0, w);
      ConfigureEnds(0, r => Done(r), sh, w, res.0, res.1);
    } else {
      DoneEnds(0, sh, w);
      EndsMore(0, 26, Done(0), sh, w, sh, 0);
    }
    StepEnds(26, OtgOffCharge(RawOnline(w)), sh, w, res.0, res.1);
    RawOnlineEnds(27, online => OtgOffCharge(online), sh, w, res.0, res.1);
  }

  lemma OtgOffEnds(sh: Shared, w: World)
    requires Real(w)
    ensures var res := OtgOffResult(sh, w); Ends(37, OtgOff(), sh, w, res.0, res.1)
  {
    hide Ends, Run, Configured, Updated, PathOff, OtgOffTail;
    var down, res := Updated(sh, w, Cntl2, 0x0f, 5), OtgOffResult(sh, w);
    if down.1 != 0 {
      ReleaseEnds(33, down.1, down.0, w);
      StepEnds(33, OtgUnboosted(down.1), down.0, w, res.0, res.1);
    } else {
      var idle := down.0.(otgActive := 0);
      var off := PathOff(idle, w);
      OffTail(off.1, off.0, w);
      assert Ends(28, OtgOffTail(off.1), off.0, w, res.0, res.1);
      StepEnds(28, Unlock(Chg, OtgOffTail(off.1)), off.0, w, res.0, res.1);
      PathOffEnds(29, r => Unlock(Chg, OtgOffTail(r)), idle, w, res.0, res.1);
      StepEnds(33, OtgUnboosted(0), down.0, w, res.0, res.1);
    }
    UpdateEnds(34, Cntl2, 0x0f, 5, r => OtgUnboosted(r), sh, w, res.0, res.1);
    StepEnds(36, OtgOff(), sh, w, res.0, res.1);
  }

  lemma OffTail(ret: int, sh: Shared, w: World)
    requires Real(w)
    ensures var res := if ret != 0 then (sh, ret) else if RawOnline(w) <= 0 then (sh, 0) else Configured(sh, w);
      Ends(28, OtgOffTail(ret), sh, w, res.0, res.1)
  {
    hide Ends, Run, Configured;
    if ret != 0 { ReleaseEnds(28, ret, sh, w); } else { OtgTailEnds(sh, w); }
  }

  lemma SetOtgEnds(active: bool, otgMa: bv8, sh: Shared, w: World)
    requires Real(w)
    ensures Run(92, SetOtg(active, otgMa), sh, w) == Some(OtgResult(sh, w, active, otgMa))
  {
    hide Ends, Run, OtgOnResult, OtgOffResult, OtgOn, OtgOff;
    var res := OtgResult(sh, w, active, otgMa);
    ReleaseEnds(37, 0, sh, w);
    ReleaseEnds(38, -517, sh, w);
    OtgOnEnds(otgMa, sh, w);
    EndsMore(20, 37, OtgOn(otgMa), sh, w, OtgOnResult(sh, w, otgMa).0, OtgOnResult(sh, w, otgMa).1);
    OtgOffEnds(sh, w);
    if w.sense(Primary).Some? { StepEnds(37, OtgWhen(active, otgMa), sh, w, res.0, res.1); }
    var p := SetOtg(active, otgMa);
    StepEnds(38, p.next, sh, w, res.0, res.1);
    StepEnds(39, p, sh, w, res.0, res.1);
    EndsMore(40, 92, p, sh, w, res.0, res.1);
    EndsIsRun(92, p, sh, w, res.0, res.1);
  }

  lemma EndsIsRun(n: nat, p: Prog, sh: Shared, w: World, out: Shared, ret: int)
    requires Ends(n, p, sh, w, out, ret)
    ensures Run(n, p, sh, w) == Some((out, ret))
  {
  }

  /** Direct charging, contracts and the switch. */

  function DirectOnResult(sh: Shared, w: World): (Shared, int) {
    match TempIn(w)
    case None => (sh, -5)
    case Some(t) =>
      if t < 100 || t >= 420 then (sh, -34)
      else
        var free := Updated(sh.(directCharging := 1), w, Cntl1, 0x08, 0);
        if free.1 != 0 then (free.0.(directCharging := 0), free.1) else free
  }

  function DirectOffResult(sh: Shared, w: World): (Shared, int) {
    var off := sh.(directCharging := 0);
    if OnlineIn(sh, w) > 0 then Configured(off, w) else (off, 0)
  }

  function DirectResult(sh: Shared, w: World, active: bool): (Shared, int) {
    if w.sense(Primary) == None then (sh, -517)
    else if active then DirectOnResult(sh, w) else DirectOffResult(sh, w)
  }

  lemma DirectOnEnds(sh: Shared, w: World)
    ensures var res := DirectOnResult(sh, w); Ends(13, DirectOn(), sh, w, res.0, res.1)
  {
    hide Ends, Run, TempIn, Updated;
    var temp, res := TempIn(w), DirectOnResult(sh, w);
    ReleaseEnds(8, -5, sh, w);
    ReleaseEnds(8, -34, sh, w);
    if temp.Some? && 100 <= temp.value < 420 {
      var flagged := sh.(directCharging := 1);
      var free := Updated(flagged, w, Cntl1, 0x08, 0);
      OpenedEnds(free.1, free.0, w);
      UpdateEnds(4, Cntl1, 0x08, 0, r => DirectOpened(r), flagged, w, res.0, res.1);
      StepEnds(6, DirectOpen(), flagged, w, res.0, res.1);
      StepEnds(7, DirectWarm(temp), sh, w, res.0, res.1);
    }
    TempEnds(8, (t: Option<int>) => DirectWarm(t), sh, w, res.0, res.1);
  }

  lemma OpenedEnds(ret: int, sh: Shared, w: World)
    ensures Ends(4, DirectOpened(ret), sh, w, if ret != 0 then sh.(directCharging := 0) else sh, ret)
  {
    hide Ends, Run;
    if ret != 0 {
      var off := sh.(directCharging := 0);
      ReleaseEnds(2, ret, off, w);
      StepEnds(2, Set(DirectCharging, 0, Unlock(Global, Done(ret))), sh, w, off, ret);
      StepEnds(3, DirectOpened(ret), sh, w, off, ret);
    } else {
      ReleaseEnds(3, 0, sh, w);
      StepEnds(3, DirectOpened(0), sh, w, sh, 0);
    }
  }

  // configure_charging as the last thing under the global lock.
  lemma ConfigureReleaseEnds(sh: Shared, w: World)
    requires Real(w)
    ensures var res := Configured(sh, w);
      Ends(27, ConfigureCharging(r => Unlock(Global, Done(r))), sh, w, res.0, res.1)
  {
    hide Ends, Run, Configured;
    var res := Configured(sh, w);
    ReleaseEnds(1, res.1, res.0, w);
    ConfigureEnds(1, r => Unlock(Global, Done(r)), sh, w, res.0, res.1);
  }

  lemma DirectOffEnds(sh: Shared, w: World)
    requires Real(w)
    ensures var res := DirectOffResult(sh, w); Ends(30, DirectOff(), sh, w, res.0, res.1)
  {
    hide Ends, Run, Configured, ConfigureCharging;
    var off, res := sh.(directCharging := 0), DirectOffResult(sh, w);
    ConfigureReleaseEnds(off, w);
    ReleaseEnds(27, 0, off, w);
    OnlineEnds(27, online => DirectBack(online), off, w, res.0, res.1);
    StepEnds(29, DirectOff(), sh, w, res.0, res.1);
  }

  lemma SetDirectEnds(active: bool, sh: Shared, w: World)
    requires Real(w)
    ensures Run(92, SetDirectCharge(active), sh, w) == Some(DirectResult(sh, w, active))
  {
    hide Ends, Run, DirectOnResult, DirectOffResult, DirectOn, DirectOff;
    var res := DirectResult(sh, w, active);
    ReleaseEnds(30, -517, sh, w);
    DirectOnEnds(sh, w);
    EndsMore(13, 30, DirectOn(), sh, w, DirectOnResult(sh, w).0, DirectOnResult(sh, w).1);
    DirectOffEnds(sh, w);
    var p := SetDirectCharge(active);
    StepEnds(30, p.next, sh, w, res.0, res.1);
    StepEnds(31, p, sh, w, res.0, res.1);
    EndsMore(32, 92, p, sh, w, res.0, res.1);
    EndsIsRun(92, p, sh, w, res.0, res.1);
  }

  function PdResult(sh: Shared, w: World, mv: nat, ma: nat): (Shared, int) {
    if (mv != 0 && !(5000 <= mv <= 9000)) || ma > 3000 then (sh, -34)
    else if w.sense(Primary) == None then (sh, -517)
    else
      var stored := sh.(typecMv := mv, typecMa := ma);
      if mv == 0 || ma == 0 || OnlineIn(sh, w) <= 0 || sh.directCharging != 0 then (stored, 0)
      else Configured(stored, w)
  }

  lemma PdOnlineEnds(sh: Shared, w: World)
    requires Real(w)
    ensures var res := if OnlineIn(sh, w) <= 0 || sh.directCharging != 0 then (sh, 0) else Configured(sh, w);
      Ends(30, PdOnline(), sh, w, res.0, res.1)
  {
    hide Ends, Run, Configured, ConfigureCharging;
    var res := if OnlineIn(sh, w) <= 0 || sh.directCharging != 0 then (sh, 0) else Configured(sh, w);
    ConfigureReleaseEnds(sh, w);
    ReleaseEnds(27, 0, sh, w);
    ReleaseEnds(28, 0, sh, w);
    if OnlineIn(sh, w) > 0 { StepEnds(27, PdWhen(OnlineIn(sh, w)), sh, w, res.0, res.1); }
    OnlineEnds(28, online => PdWhen(online), sh, w, res.0, res.1);
  }

  lemma SetPdEnds(mv: nat, ma: nat, sh: Shared, w: World)
    requires Real(w)
    ensures Run(92, SetPdContract(mv, ma), sh, w) == Some(PdResult(sh, w, mv, ma))
  {
    hide Ends, Run, Configured, PdOnline, OnlineIn;
    var p, res := SetPdContract(mv, ma), PdResult(sh, w, mv, ma);
    if (mv != 0 && (mv < 5000 || mv > 9000)) || ma > 3000 {
      DoneEnds(-34, sh, w);
      EndsMore(0, 92, p, sh, w, sh, -34);
    } else {
      var stored := sh.(typecMv := mv, typecMa := ma);
      assert OnlineIn(stored, w) == OnlineIn(sh, w) by { SameOnline(stored, sh, w); }
      ReleaseEnds(32, -517, sh, w);
      ReleaseEnds(30, 0, stored, w);
      PdOnlineEnds(stored, w);
      if w.sense(Primary).Some? {
        var q := PdStore(mv, ma);
        StepEnds(30, q.next, sh.(typecMv := mv), w, res.0, res.1);
        StepEnds(31, q, sh, w, res.0, res.1);
      }
      StepEnds(32, p.next, sh, w, res.0, res.1);
      StepEnds(33, p, sh, w, res.0, res.1);
      EndsMore(34, 92, p, sh, w, res.0, res.1);
    }
    EndsIsRun(92, p, sh, w, res.0, res.1);
  }

  lemma SameOnline(a: Shared, b: Shared, w: World)
    requires a.otgActive == b.otgActive
    ensures OnlineIn(a, w) == OnlineIn(b, w)
  {
  }

  function SwitchResult(sh: Shared, w: World, enabled: bool): (Shared, int) {
    if enabled == (sh.fastCharge != 0) then (sh, 0)
    else (Configured(sh.(fastCharge := if enabled then 1 else 0), w).0, 0)
  }

  lemma SwitchStoreEnds(enabled: bool, sh: Shared, w: World)
    requires Real(w)
    ensures Run(92, FastChargeStore(enabled), sh, w) == Some(SwitchResult(sh, w, enabled))
  {
    hide Ends, Run, Configured, ConfigureCharging;
    var p, res := FastChargeStore(enabled), SwitchResult(sh, w, enabled);
    DoneEnds(0, res.0, w);
    if enabled == (sh.fastCharge != 0) {
      EndsMore(0, 27, Done(0), sh, w, res.0, 0);
    } else {
      var flipped := sh.(fastCharge := if enabled then 1 else 0);
      ConfigureEnds(0, _ => Done(0), flipped, w, res.0, 0);
      StepEnds(26, p.onGet(sh.fastCharge), sh, w, res.0, 0);
    }
    StepEnds(27, p, sh, w, res.0, 0);
    EndsMore(28, 92, p, sh, w, res.0, 0);
    EndsIsRun(92, p, sh, w, res.0, 0);
  }

  /** What the driver reports. */

  // POWER_SUPPLY_STATUS_*: 1 charging, 2 discharging, 3 not charging, 4 full.
  function StatusIn(sh: Shared, w: World): int {
    if sh.otgActive != 0 then 2
    else if w.sense(Status1) == None || w.sense(Status2) == None then -5
    else
      var st1, st2 := w.sense(Status1).value, w.sense(Status2).value;
      if st2 / 32 % 2 == 1 then 4
      else if sh.directCharging != 0 && st1 % 2 == 1 then 1
      else if st2 / 8 % 2 == 1 then 1
      else if st1 % 2 == 1 then 3
      else 2
  }

  lemma StatusEnds(n: nat, k: int -> Prog, sh: Shared, w: World, out: Shared, ret: int)
    requires Ends(n, k(StatusIn(sh, w)), sh, w, out, ret)
    ensures Ends(n + 4, GetStatus(k), sh, w, out, ret)
  {
    hide Ends, Run;
    var code := StatusIn(sh, w);
    EndsMore(n, n + 2, k(code), sh, w, out, ret);
    EndsMore(n, n + 1, k(code), sh, w, out, ret);
    EndsMore(n, n + 3, k(code), sh, w, out, ret);
    if sh.otgActive == 0 {
      var one := GetStatus(k).onGet(0);
      if w.sense(Status1).Some? {
        var two := one.onSense(w.sense(Status1));
        if w.sense(Status2).Some? {
          var three := two.onSense(w.sense(Status2));
          assert three.Get? && three.onGet(sh.directCharging)
              == k(StatusOf(w.sense(Status1).value, w.sense(Status2).value, sh.directCharging));
          StepEnds(n, three, sh, w, out, ret);
        }
        StepEnds(n + 1, two, sh, w, out, ret);
      }
      StepEnds(n + 2, one, sh, w, out, ret);
    }
    StepEnds(n + 3, GetStatus(k), sh, w, out, ret);
  }

  // The gauge's percentage has eight fractional bits; above 100 it reads 100.
  function CapacityIn(w: World): int {
    match SramIn(w) case None => -5 case Some(raw) => Min(raw / 256, 100)
  }

  lemma CapacityEnds(n: nat, k: int -> Prog, sh: Shared, w: World, out: Shared, ret: int)
    requires Ends(n, k(CapacityIn(w)), sh, w, out, ret)
    ensures Ends(n + 4, GetCapacity(k), sh, w, out, ret)
  {
    hide Ends, Run;
    if SramIn(w).Some? { WholePercent(SramIn(w).value); }
    SramEnds(n, (raw: Option<int>) =>
      if raw.None? then k(EIO)
      else k(if raw.value * 10 / 256 / 10 > 100 then 100 else raw.value * 10 / 256 / 10), sh, w, out, ret);
  }

  lemma WholePercent(raw: int)
    ensures raw * 10 / 256 / 10 == raw / 256
  {
    var q, r := raw / 256, raw % 256;
    assert raw == q * 256 + r;
    ModUnique(raw * 10, 256, q * 10 + r * 10 / 256, r * 10 % 256);
    ModUnique(q * 10 + r * 10 / 256, 10, q, r * 10 / 256);
  }

  // Reading a property changes nothing and returns that reading.
  lemma PropertyEnds(which: nat, sh: Shared, w: World)
    requires Real(w)
    ensures Run(92, ReadProperty(which), sh, w)
         == Some((sh, if which == 0 then StatusIn(sh, w) else if which == 1 then CapacityIn(w)
                      else if which == 2 then (if TempIn(w).None? then -5 else TempIn(w).value)
                      else if which == 3 then OnlineIn(sh, w) else TypeCode(SourceIn(sh, w))))
  {
    hide Ends, Run, StatusIn, CapacityIn, TempIn, OnlineIn, SourceIn;
    hide GetStatus, GetCapacity, GetTemp, GetOnline, GetUsbType;
    var p := ReadProperty(which);
    var ret := if which == 0 then StatusIn(sh, w) else if which == 1 then CapacityIn(w)
               else if which == 2 then (if TempIn(w).None? then -5 else TempIn(w).value)
               else if which == 3 then OnlineIn(sh, w) else TypeCode(SourceIn(sh, w));
    DoneEnds(ret, sh, w);
    if which == 0 {
      StatusEnds(0, v => Done(v), sh, w, sh, ret);
      EndsMore(4, 92, p, sh, w, sh, ret);
    } else if which == 1 {
      CapacityEnds(0, v => Done(v), sh, w, sh, ret);
      EndsMore(4, 92, p, sh, w, sh, ret);
    } else if which == 2 {
      TempEnds(0, (v: Option<int>) => Done(if v.None? then EIO else v.value), sh, w, sh, ret);
      EndsMore(5, 92, p, sh, w, sh, ret);
    } else if which == 3 {
      OnlineEnds(0, v => Done(v), sh, w, sh, ret);
      EndsMore(2, 92, p, sh, w, sh, ret);
    } else {
      UsbTypeEnds(0, v => Done(v), sh, w, sh, ret);
      EndsMore(4, 92, p, sh, w, sh, ret);
    }
    EndsIsRun(92, p, sh, w, sh, ret);
  }

  lemma FlagsEnd(sh: Shared, w: World)
    ensures Run(92, IsOtgActive(), sh, w) == Some((sh, if w.sense(Primary) == None then 0 else sh.otgActive))
    ensures Run(92, FastChargeEnabled(), sh, w) == Some((sh, if w.sense(Primary) == None then 0 else sh.fastCharge))
  {
    hide Ends, Run;
    var p, q := IsOtgActive(), FastChargeEnabled();
    var a := if w.sense(Primary) == None then 0 else sh.otgActive;
    var b := if w.sense(Primary) == None then 0 else sh.fastCharge;
    var p2, q2 := p.next.onSense(w.sense(Primary)), q.next.onSense(w.sense(Primary));
    ReleaseEnds(1, a, sh, w);
    ReleaseEnds(2, a, sh, w);
    if w.sense(Primary).Some? { StepEnds(1, p2, sh, w, sh, a); }
    StepEnds(2, p.next, sh, w, sh, a);
    StepEnds(3, p, sh, w, sh, a);
    EndsMore(4, 92, p, sh, w, sh, a);
    EndsIsRun(92, p, sh, w, sh, a);
    DoneEnds(b, sh, w);
    if w.sense(Primary).Some? { StepEnds(0, q2.next, sh, w, sh, b); } else { EndsMore(0, 1, q2.next, sh, w, sh, b); }
    StepEnds(1, q2, sh, w, sh, b);
    StepEnds(2, q.next, sh, w, sh, b);
    StepEnds(3, q, sh, w, sh, b);
    EndsMore(4, 92, q, sh, w, sh, b);
    EndsIsRun(92, q, sh, w, sh, b);
  }

  /** The poll. */

  function LastlyIn(sh: Shared, w: World, online: int): Shared {
    if online < 0 || (online != 0) == (sh.lastOnline != 0) then sh
    else
      var noted := sh.(lastOnline := online);
      if online == 0 then Updated(noted, w, Cntl1, 0x08, 0).0 else noted
  }

  // Q4 open at the source's expense: online, not charging, no pump, no STOP.
  function Recovered(sh: Shared, w: World, status: int, online: int): Shared {
    if online > 0 && status == 3 && sh.directCharging == 0 && ThermalOf(sh.thermalState) != Stop
       && w.canRead(Cntl1) && !sh.Q4Closed()
    then Configured(sh, w).0
    else sh
  }

  function Polled(sh: Shared, w: World): Shared {
    var online, status := OnlineIn(sh, w), StatusIn(sh, w);
    var counted := sh.(pollCount := (sh.pollCount + 1) % 0x1_0000_0000);
    var warm := if online <= 0 || TempIn(w).None? then counted
                else counted.(thermalState := Severity(ThermalIn(sh, w)));
    var done := if warm.thermalState == sh.thermalState then warm else Configured(warm, w).0;
    var now := if warm.thermalState == sh.thermalState then status else StatusIn(done, w);
    LastlyIn(Recovered(done, w, now, online), w, online)
  }

  lemma LastlyEnds(sh: Shared, w: World, online: int)
    ensures Ends(4, PollOnline(online), sh, w, LastlyIn(sh, w, online), 0)
  {
    hide Ends, Run, Updated;
    var out := LastlyIn(sh, w, online);
    DoneEnds(0, out, w);
    EndsMore(0, 4, Done(0), out, w, out, 0);
    EndsMore(0, 3, Done(0), out, w, out, 0);
    EndsMore(0, 2, Done(0), out, w, out, 0);
    if online >= 0 {
      var p := PollOnline(online).onGet(sh.lastOnline);
      if p.Set? {
        var noted := sh.(lastOnline := online);
        if online == 0 { UpdateEnds(0, Cntl1, 0x08, 0, _ => Done(0), noted, w, out, 0); }
        StepEnds(2, p, sh, w, out, 0);
      }
      StepEnds(3, PollOnline(online), sh, w, out, 0);
    }
  }

  lemma ReopenEnds(sh: Shared, w: World, online: int)
    requires Real(w) && online > 0 && sh.directCharging == 0 && ThermalOf(sh.thermalState) != Stop
    ensures Ends(35, PollReopen(online), sh, w, LastlyIn(Recovered(sh, w, 3, online), w, online), 0)
  {
    hide Ends, Run, Updated, Configured, ConfigureCharging, PollOnline, LastlyIn, GetStatus;
    var out := LastlyIn(Recovered(sh, w, 3, online), w, online);
    LastlyEnds(sh, w, online);
    EndsMore(4, 34, PollOnline(online), sh, w, LastlyIn(sh, w, online), 0);
    if w.canRead(Cntl1) && !sh.Q4Closed() {
      var res := Configured(sh, w);
      LastlyEnds(res.0, w, online);
      EndsMore(4, 8, PollOnline(online), res.0, w, out, 0);
      StatusEnds(4, _ => PollOnline(online), res.0, w, out, 0);
      assert Ends(8, PollReopened(res.1, online), res.0, w, out, 0);
      ConfigureEnds(8, r => PollReopened(r, online), sh, w, out, 0);
    }
    StepEnds(34, PollReopen(online), sh, w, out, 0);
  }

  lemma RecoverEnds(sh: Shared, w: World, status: int, online: int)
    requires Real(w)
    ensures Ends(37, PollRecover(status, online), sh, w, LastlyIn(Recovered(sh, w, status, online), w, online), 0)
  {
    hide Ends, Run, Configured, PollOnline, LastlyIn, PollReopen;
    var out := LastlyIn(Recovered(sh, w, status, online), w, online);
    LastlyEnds(sh, w, online);
    EndsMore(4, 35, PollOnline(online), sh, w, LastlyIn(sh, w, online), 0);
    EndsMore(4, 36, PollOnline(online), sh, w, LastlyIn(sh, w, online), 0);
    EndsMore(4, 37, PollOnline(online), sh, w, LastlyIn(sh, w, online), 0);
    if online > 0 && status == 3 {
      var p := PollRecover(status, online);
      if sh.directCharging == 0 {
        if ThermalOf(sh.thermalState) != Stop { ReopenEnds(sh, w, online); }
        StepEnds(35, p.onGet(0), sh, w, out, 0);
      }
      StepEnds(36, p, sh, w, out, 0);
    }
  }

  // The rest of the poll once the thermal state is known.
  lemma ChangedEnds(before: int, status: int, sh: Shared, w: World, online: int)
    requires Real(w)
    ensures
      var s := if sh.thermalState == before then sh else Configured(sh, w).0;
      var now := if sh.thermalState == before then status else StatusIn(s, w);
      Ends(68, PollChanged(before, status, online), sh, w, LastlyIn(Recovered(s, w, now, online), w, online), 0)
  {
    hide Ends, Run, Configured, ConfigureCharging, PollRecover, LastlyIn, Recovered, GetStatus, StatusIn;
    var s := if sh.thermalState == before then sh else Configured(sh, w).0;
    var now := if sh.thermalState == before then status else StatusIn(s, w);
    var out := LastlyIn(Recovered(s, w, now, online), w, online);
    RecoverEnds(s, w, now, online);
    if sh.thermalState == before {
      EndsMore(37, 67, PollRecover(status, online), sh, w, out, 0);
    } else {
      StatusEnds(37, st => PollRecover(st, online), s, w, out, 0);
      ConfigureEnds(41, _ => PollRestatus(online), sh, w, out, 0);
    }
    StepEnds(67, PollChanged(before, status, online), sh, w, out, 0);
  }

  lemma ThermalEnds(status: int, sh: Shared, w: World, online: int)
    requires Real(w)
    ensures
      var warm := if online <= 0 || TempIn(w).None? then sh else sh.(thermalState := Severity(ThermalIn(sh, w)));
      var s := if warm.thermalState == sh.thermalState then warm else Configured(warm, w).0;
      var now := if warm.thermalState == sh.thermalState then status else StatusIn(s, w);
      Ends(76, PollThermal(status, online), sh, w, LastlyIn(Recovered(s, w, now, online), w, online), 0)
  {
    hide Ends, Run, Configured, PollChanged, PollRecover, LastlyIn, Recovered, GetTemp, StatusIn, TempIn;
    var warm := if online <= 0 || TempIn(w).None? then sh else sh.(thermalState := Severity(ThermalIn(sh, w)));
    var s := if warm.thermalState == sh.thermalState then warm else Configured(warm, w).0;
    var now := if warm.thermalState == sh.thermalState then status else StatusIn(s, w);
    var out := LastlyIn(Recovered(s, w, now, online), w, online);
    var before := sh.thermalState;
    if online <= 0 {
      RecoverEnds(sh, w, status, online);
      EndsMore(37, 75, PollRecover(status, online), sh, w, out, 0);
    } else {
      ChangedEnds(before, status, warm, w, online);
      var temp := TempIn(w);
      var p := PollTemp(before, temp, status, online);
      if temp.None? {
        EndsMore(68, 70, p, sh, w, out, 0);
      } else {
        StepEnds(68, p.onGet(before), sh, w, out, 0);
        StepEnds(69, p, sh, w, out, 0);
      }
      TempEnds(70, (t: Option<int>) => PollTemp(before, t, status, online), sh, w, out, 0);
    }
    StepEnds(75, PollThermal(status, online), sh, w, out, 0);
  }

  lemma PollEnds(sh: Shared, w: World)
    requires Real(w)
    ensures Run(92, PollWork(), sh, w) == Some((Polled(sh, w), 0))
  {
    hide Ends, Run, Configured, LastlyIn, Recovered, StatusIn, TempIn, GetStatus, GetOnline, GetUsbType, GetCapacity;
    hide PollThermal, SourceIn, OnlineIn;
    var online, status := OnlineIn(sh, w), StatusIn(sh, w);
    var counted := sh.(pollCount := (sh.pollCount + 1) % 0x1_0000_0000);
    var out := Polled(sh, w);
    CountKeeps(sh, w);
    ThermalEnds(status, counted, w, online);
    var p := PollCounted(status, online);
    var q := p.onGet(sh.pollCount);
    if sh.pollCount % 10 == 0 {
      CapacityEnds(76, _ => PollThermal(status, online), counted, w, out, 0);
    } else {
      EndsMore(76, 80, PollThermal(status, online), counted, w, out, 0);
    }
    StepEnds(80, q, sh, w, out, 0);
    StepEnds(81, p, sh, w, out, 0);
    UsbTypeEnds(82, _ => PollCounted(status, online), sh, w, out, 0);
    OnlineEnds(86, o => PollTyped(status, o), sh, w, out, 0);
    StatusEnds(88, st => PollStatused(st), sh, w, out, 0);
    EndsIsRun(92, PollWork(), sh, w, out, 0);
  }

  lemma CountKeeps(sh: Shared, w: World)
    ensures var counted := sh.(pollCount := (sh.pollCount + 1) % 0x1_0000_0000);
      ThermalIn(counted, w) == ThermalIn(sh, w) && counted.thermalState == sh.thermalState
  {
  }
}
