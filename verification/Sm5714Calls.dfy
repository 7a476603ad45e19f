/**
 * The battery driver call by call: what the registers and the flags say afterwards, in
 * milliamperes, tenths of a degree and bits, and which code the caller gets.
 */
module Sm5714Calls {
  import opened Numbers
  import opened Wrappers
  import opened Sm5714Codes
  import opened Sm5714Machine
  import opened Sm5714Battery
  import opened Sm5714Outcome

  /** Programming the charger. */

  // configure_charging as a call of its own.
  function Configure(): Prog { ConfigureCharging(r => Done(r)) }

  lemma ConfigureRuns(sh: Shared, w: World)
    requires Real(w)
    ensures Run(92, Configure(), sh, w) == Some(Configured(sh, w))
  {
    hide Configured, Ends, Run;
    var res := Configured(sh, w);
    DoneEnds(res.1, res.0, w);
    ConfigureEnds(0, r => Done(r), sh, w, res.0, res.1);
    EndsMore(26, 92, Configure(), sh, w, res.0, res.1);
    EndsIsRun(92, Configure(), sh, w, res.0, res.1);
  }

  // The input limit is the largest step of 25 mA not above ma.
  predicate InputIs(s: Shared, ma: nat) {
    exists code: nat :: code < 0x80 && Holds(s.vbusCntl, code) && InputCurrentMa(code) <= ma < InputCurrentMa(code) + 25
  }

  // The charge current is the largest step of 15.625 mA not above ma.
  predicate PackIs(s: Shared, ma: nat) {
    exists code: nat :: code < 0x100 && Holds(s.chgCntl2, code)
      && FastCurrentUa(code) <= ma * 1000 < FastCurrentUa(code) + 15625
  }

  predicate Holds(v: bv8, code: nat)
    requires code < 0x100
  {
    v == code as bv8
  }

  // What a completed programming leaves: both currents, Q4, the float voltage.
  predicate ProgrammedTo(a: Shared, b: Shared, inputMa: nat, packMa: nat) {
    && InputIs(b, inputMa) && PackIs(b, packMa) && b.Q4Closed()
    && (a.floatUv <= 0 ==> b.chgCntl4 == a.chgCntl4)
    && (a.floatUv > 0 ==> b.chgCntl4 & 0x3f == FloatCode(a.floatUv) && b.chgCntl4 & 0xc0 == a.chgCntl4 & 0xc0)
    && b.cntl1 & 0xf7 == a.cntl1 & 0xf7
    && b == a.(cntl1 := b.cntl1, vbusCntl := b.vbusCntl, chgCntl2 := b.chgCntl2, chgCntl4 := b.chgCntl4,
               thermalState := b.thermalState)
  }

  lemma MergeKeeps(was: bv8, mask: bv8, val: bv8)
    ensures Merged(was, mask, val) & mask == val & mask && Merged(was, mask, val) & !mask == was & !mask
  {
  }

  lemma Q4Bit(was: bv8)
    ensures Merged(was, 0x08, 0x08) & 0x08 != 0 && Merged(was, 0x08, 0x08) & 0xf7 == was & 0xf7
    ensures Merged(was, 0x08, 0) & 0x08 == 0 && Merged(was, 0x08, 0) & 0xf7 == was & 0xf7
  {
  }

  lemma FloatBits(was: bv8, code: bv8)
    requires code < 0x40
    ensures Merged(was, 0x3f, code) & 0x3f == code && Merged(was, 0x3f, code) & 0xc0 == was & 0xc0
  {
  }

  lemma CurrentCodes(s: Shared, inputMa: nat, packMa: nat)
    requires 500 <= inputMa <= 3000 && 500 <= packMa <= 3150
    requires s.vbusCntl == InputCode(inputMa) && s.chgCntl2 == PackCode(packMa)
    ensures InputIs(s, inputMa) && PackIs(s, packMa)
  {
    hide InputCurrentReg, FastCurrentReg, InputCurrentMa, FastCurrentUa;
    InputCurrentNeverAbove(inputMa);
    FastCurrentNeverAbove(packMa);
    assert Holds(s.vbusCntl, InputCurrentReg(inputMa)) && Holds(s.chgCntl2, FastCurrentReg(packMa));
  }

  lemma ClosedIs(sh: Shared, w: World, inputMa: nat)
    requires Wired(w)
    ensures var res := Closed(sh, w, inputMa);
      && res.1 == 0 && res.0.Q4Closed() && res.0.cntl1 & 0xf7 == sh.cntl1 & 0xf7
      && res.0 == sh.(cntl1 := res.0.cntl1, vbusCntl := InputCode(inputMa))
  {
    hide Merged;
    Q4Bit(sh.cntl1);
  }

  lemma FloatedIs(sh: Shared, w: World, inputMa: nat)
    requires Wired(w)
    ensures var res := Floated(sh, w, inputMa);
      && res.1 == 0 && res.0.Q4Closed() && res.0.cntl1 & 0xf7 == sh.cntl1 & 0xf7
      && (sh.floatUv <= 0 ==> res.0.chgCntl4 == sh.chgCntl4)
      && (sh.floatUv > 0 ==>
            res.0.chgCntl4 & 0x3f == FloatCode(sh.floatUv) && res.0.chgCntl4 & 0xc0 == sh.chgCntl4 & 0xc0)
      && res.0 == sh.(cntl1 := res.0.cntl1, vbusCntl := InputCode(inputMa), chgCntl4 := res.0.chgCntl4)
  {
    hide Closed, Merged, FloatCode, InputCode, Updated;
    if sh.floatUv > 0 {
      var code := FloatCode(sh.floatUv);
      SixBits(sh.floatUv);
      FloatBits(sh.chgCntl4, code);
      FloatWritten(sh, w, code);
      ClosedIs(sh.(chgCntl4 := Merged(sh.chgCntl4, 0x3f, code)), w, inputMa);
    } else {
      ClosedIs(sh, w, inputMa);
    }
  }

  lemma SixBits(uv: nat)
    ensures FloatCode(uv) < 0x40
  {
  }

  lemma FloatWritten(sh: Shared, w: World, code: bv8)
    requires Wired(w)
    ensures Updated(sh, w, ChgCntl4, 0x3f, code) == (sh.(chgCntl4 := Merged(sh.chgCntl4, 0x3f, code)), 0)
  {
    hide Merged;
  }

  lemma ProgrammedIs(sh: Shared, w: World, inputMa: nat, packMa: nat)
    requires Wired(w) && 500 <= inputMa <= 3000 && 500 <= packMa <= 3150
    ensures Programmed(sh, w, inputMa, packMa).1 == 0
    ensures ProgrammedTo(sh, Programmed(sh, w, inputMa, packMa).0, inputMa, packMa)
  {
    hide Floated, InputCode, PackCode;
    FloatedIs(sh.(vbusCntl := InputCode(500), chgCntl2 := PackCode(packMa)), w, inputMa);
    CurrentCodes(Programmed(sh, w, inputMa, packMa).0, inputMa, packMa);
  }

  // Nothing programmed in the STOP band; Q4 is open.
  predicate Halted(a: Shared, b: Shared) {
    !b.Q4Closed() && b.vbusCntl == a.vbusCntl && b.chgCntl2 == a.chgCntl2
  }

  predicate SettledAt(a: Shared, w: World, b: Shared, inputMa: nat, packMa: nat) {
    if ThermalIn(a, w) == Stop then Halted(a, b)
    else ProgrammedTo(a, b, inputMa, if ThermalIn(a, w) == Reduced then Min(packMa, 2100) else packMa)
  }

  lemma SameButThermal(a: Shared, warm: Shared, b: Shared, inputMa: nat, packMa: nat)
    requires warm == a.(thermalState := warm.thermalState) && ProgrammedTo(warm, b, inputMa, packMa)
    ensures ProgrammedTo(a, b, inputMa, packMa)
  {
  }

  lemma ConfiguredIs(sh: Shared, w: World, s: Source)
    requires Real(w) && Wired(w) && sh.otgActive == 0 && SourceIn(sh, w) == Some(s)
    ensures
      var th := ThermalIn(sh, w);
      var fast := sh.fastCharge != 0;
      var res := Configured(sh, w);
      && res.1 == 0
      && if th == Stop then Halted(sh, res.0)
         else ProgrammedTo(sh, res.0, InputMa(fast, sh.typecMv, sh.typecMa, s),
                           PackMa(fast, sh.typecMv, sh.typecMa, s, th))
  {
    hide Programmed, TempIn, ProgrammedTo, SourceIn, Merged, InputMa, PackMa, NextThermal;
    var th, fast := ThermalIn(sh, w), sh.fastCharge != 0;
    var warm := if TempIn(w).None? then sh else sh.(thermalState := Severity(th));
    Q4Bit(sh.cntl1);
    if th != Stop {
      var inputMa, packMa := InputMa(fast, sh.typecMv, sh.typecMa, s), PackMa(fast, sh.typecMv, sh.typecMa, s, th);
      ProgrammedIs(warm, w, inputMa, packMa);
      SameButThermal(sh, warm, Programmed(warm, w, inputMa, packMa).0, inputMa, packMa);
    }
  }

  // The limits by what the MUIC saw: bit 3 of DEVICE_TYPE1 a charging downstream port,
  // bits 0 and 1 a standard one, any other bit a dedicated charger. Unknown sources are
  // never treated as high-current ports.
  function PortInput(t: int): nat { if t / 8 % 2 == 1 then 1500 else if t % 4 == 0 && t != 0 then 1800 else 500 }
  function PortPack(t: int): nat { if t / 8 % 2 == 1 then 1500 else if t % 4 == 0 && t != 0 then 2200 else 500 }

  // No contract of at least 5 V and 500 mA, a source on VBUS.
  lemma ChargesByPort(sh: Shared, w: World, st: int, t: int)
    requires Real(w) && Wired(w) && sh.otgActive == 0
    requires w.sense(Status1) == Some(st) && st % 2 == 1 && w.sense(MuicType) == Some(t)
    requires sh.typecMv < 5000 || (sh.typecMv == 5000 && sh.typecMa < 500)
    ensures var r := Run(92, Configure(), sh, w);
      r.Some? && r.value.1 == 0 && SettledAt(sh, w, r.value.0, PortInput(t), PortPack(t))
  {
    hide Run, Configured, ThermalIn, Configure, ProgrammedTo;
    ConfigureRuns(sh, w);
    ConfiguredIs(sh, w, PortType(t));
  }

  // The register then reads exactly that limit.
  lemma PortLimitReads(s: Shared, t: int)
    requires InputIs(s, PortInput(t))
    ensures InputCurrentMa(s.vbusCntl as int) == PortInput(t)
  {
    var code: nat :| code < 0x80 && Holds(s.vbusCntl, code)
      && InputCurrentMa(code) <= PortInput(t) < InputCurrentMa(code) + 25;
    assert code == 16 || code == 56 || code == 68;
    CodeReads(s.vbusCntl, code);
  }

  lemma CodeReads(v: bv8, code: nat)
    requires (code == 16 || code == 56 || code == 68) && v == code as bv8
    ensures v as int == code
  {
    if code == 16 {
      assert v == 16;
    } else if code == 56 {
      assert v == 56;
    } else {
      assert v == 68;
    }
  }

  // No contract and nothing on VBUS, or above 5 V with less than 500 mA: the 500 mA of an
  // unknown source.
  lemma ChargesUnknown(sh: Shared, w: World, st: int)
    requires Real(w) && Wired(w) && sh.otgActive == 0 && w.sense(Status1) == Some(st)
    requires (st % 2 == 0 && sh.typecMv < 5000) || (sh.typecMv > 5000 && sh.typecMa < 500)
    ensures var r := Run(92, Configure(), sh, w);
      r.Some? && r.value.1 == 0 && SettledAt(sh, w, r.value.0, 500, 500)
  {
    hide Run, Configured, ThermalIn, Configure, ProgrammedTo;
    ConfigureRuns(sh, w);
    ConfiguredIs(sh, w, SourceIn(sh, w).value);
  }

  // With a contract: its current up to 3 A, above 5 V without the switch up to 1660 mA;
  // 3150 mA for the battery with the switch, 2800 without, 2100 in the warm band.
  lemma ChargesByContract(sh: Shared, w: World)
    requires Real(w) && Wired(w) && sh.otgActive == 0 && SourceIn(sh, w).Some?
    requires sh.typecMv >= 5000 && sh.typecMa >= 500
    ensures
      var top := if sh.typecMv > 5000 && sh.fastCharge == 0 then 1660 else 3000;
      var r := Run(92, Configure(), sh, w);
      && r.Some? && r.value.1 == 0
      && SettledAt(sh, w, r.value.0, Min(sh.typecMa, top), if sh.fastCharge != 0 then 3150 else 2800)
  {
    hide Run, Configured, ThermalIn, Configure;
    ConfigureRuns(sh, w);
    ConfiguredIs(sh, w, SourceIn(sh, w).value);
  }

  // VBUS, or a source on it without a contract above 5 V, cannot be read.
  predicate Unreadable(sh: Shared, w: World) {
    || w.sense(Status1) == None
    || (w.sense(Status1).value % 2 == 1 && sh.typecMv <= 5000 && w.sense(MuicType) == None)
  }

  // While the boost runs, or where the source cannot be read, nothing is touched.
  lemma ConfigureRefuses(sh: Shared, w: World)
    requires Real(w) && (sh.otgActive != 0 || Unreadable(sh, w))
    ensures Run(92, Configure(), sh, w) == Some((sh, if sh.otgActive != 0 then -16 else -5))
  {
    hide Run, Configure;
    ConfigureRuns(sh, w);
  }

  // The first two writes lost: an error, Q4 and the charge current as they were, the input
  // limit untouched or down at 500 mA.
  lemma ConfigureFails(sh: Shared, w: World)
    requires Real(w) && sh.otgActive == 0 && SourceIn(sh, w).Some? && ThermalIn(sh, w) != Stop
    requires !w.canWrite(VbusCntl) || !w.canWrite(ChgCntl2)
    ensures
      var r := Run(92, Configure(), sh, w);
      && r.Some? && r.value.1 == -5
      && r.value.0 == sh.(thermalState := r.value.0.thermalState, vbusCntl := r.value.0.vbusCntl)
      && (if w.canWrite(VbusCntl) then InputIs(r.value.0, 500) else r.value.0.vbusCntl == sh.vbusCntl)
  {
    hide Run, Configure, TempIn, SourceIn, Floated, InputMa, PackMa, NextThermal;
    ConfigureRuns(sh, w);
    assert InputCurrentMa(16) == 500 && Holds(InputCode(500), 16);
  }

  /** Temperatures. */

  // The thermistor in thousandths, to the nearest tenth.
  lemma NearestTenth(mc: int)
    ensures var t := RoundClosest100(mc); -50 <= mc - 100 * t <= 50 && (mc % 100 == 50 ==> (mc > 0 <==> 100 * t > mc))
  {
  }

  // The thermistor between -20 and 90 degrees, else the gauge, else no temperature.
  lemma TemperatureRead(w: World)
    ensures
      var mc := w.sense(Thermistor);
      var raw := w.sense(FgData);
      TempIn(w)
      == if mc.Some? && -20050 < mc.value < 90050 then Some(RoundClosest100(mc.value))
         else if w.sense(FgSelect).Some? && raw.Some? then Some(FgTemp(raw.value))
         else None
  {
    hide FgTemp;
  }

  // A field that already has its value needs no write; any other does, and both need
  // the read.
  lemma UpdateWritesOnChange(sh: Shared, w: World, reg: Reg, mask: bv8, val: bv8)
    requires !w.canWrite(reg)
    ensures Updated(sh, w, reg, mask, val)
         == (sh, if w.canRead(reg) && sh.RegVal(reg) & mask == val & mask then 0 else -5)
  {
    MergeSame(sh.RegVal(reg), mask, val);
    SameReg(sh, reg);
    hide Merged;
  }

  lemma MergeSame(was: bv8, mask: bv8, val: bv8)
    ensures Merged(was, mask, val) == was <==> was & mask == val & mask
  {
  }

  // The gauge's word: bit 15 the sign, the rest in units of 2989/52428.8 of a tenth.
  lemma GaugeWord(raw: int)
    requires 0 <= raw < 0x8000
    ensures var t := FgTemp(raw); 0 <= 524288 * t <= 29890 * raw < 524288 * (t + 1)
    ensures FgTemp(raw + 0x8000) == -FgTemp(raw)
  {
    var a := raw * 29890;
    assert raw % 0x8000 * 10 * 2989 == a;
    var q := a / 2048;
    ModUnique(a, 524288, q / 256, q % 256 * 2048 + a % 2048);
    assert (raw + 0x8000) % 0x8000 == raw && (raw + 0x8000) / 0x8000 == 1;
  }

  /** What is reported. */

  // The type of a source on VBUS: 6 for a contract above 5 V, else by DEVICE_TYPE1 3 for
  // a charging downstream port, 1 for a standard one, 2 for a dedicated charger, 0 for
  // none of them; 0 without a source.
  lemma TypeReported(sh: Shared, w: World, st: int, t: int)
    requires Real(w) && sh.otgActive == 0 && w.sense(Status1) == Some(st) && w.sense(MuicType) == Some(t)
    ensures Run(92, ReadProperty(4), sh, w)
         == Some((sh, if st % 2 == 0 then 0 else if sh.typecMv > 5000 then 6
                      else if t / 8 % 2 == 1 then 3 else if t % 4 != 0 then 1 else if t != 0 then 2 else 0))
  {
    hide Run, ReadProperty;
    PropertyEnds(4, sh, w);
  }

  // Charging status: 4 full, 1 charging (by the charger, or by the pump with a source on
  // VBUS), 3 a source but no charging, 2 discharging; while the boost runs always 2.
  lemma StatusReported(sh: Shared, w: World, st1: int, st2: int)
    requires Real(w) && w.sense(Status1) == Some(st1) && w.sense(Status2) == Some(st2)
    ensures
      var full, charging, source := st2 / 32 % 2 == 1, st2 / 8 % 2 == 1, st1 % 2 == 1;
      Run(92, ReadProperty(0), sh, w)
      == Some((sh, if sh.otgActive != 0 then 2 else if full then 4
                   else if charging || (sh.directCharging != 0 && source) then 1 else if source then 3 else 2))
  {
    hide Run, ReadProperty;
    PropertyEnds(0, sh, w);
  }

  // The gauge's percentage, the fraction dropped, at most 100.
  lemma CapacityReported(sh: Shared, w: World, sel: int, raw: int)
    requires Real(w) && w.sense(FgSelect) == Some(sel) && w.sense(FgData) == Some(raw)
    ensures Run(92, ReadProperty(1), sh, w) == Some((sh, if raw >= 25600 then 100 else raw / 256))
  {
    hide Run, ReadProperty;
    PropertyEnds(1, sh, w);
  }

  // VBUS present; 0 while the boost itself drives it.
  lemma OnlineReported(sh: Shared, w: World, st: int)
    requires Real(w) && w.sense(Status1) == Some(st)
    ensures Run(92, ReadProperty(3), sh, w) == Some((sh, if sh.otgActive != 0 then 0 else st % 2))
  {
    hide Run, ReadProperty;
    PropertyEnds(3, sh, w);
  }

  // A lost read of any of them is -EIO.
  lemma LostReadReported(sh: Shared, w: World)
    requires Real(w) && sh.otgActive == 0
    ensures w.sense(Status1) == None || w.sense(Status2) == None ==> Run(92, ReadProperty(0), sh, w) == Some((sh, -5))
    ensures w.sense(FgSelect) == None || w.sense(FgData) == None ==> Run(92, ReadProperty(1), sh, w) == Some((sh, -5))
    ensures w.sense(Status1) == None ==> Run(92, ReadProperty(3), sh, w) == Some((sh, -5))
    ensures Unreadable(sh, w) ==> Run(92, ReadProperty(4), sh, w) == Some((sh, -5))
  {
    hide Run, ReadProperty;
    PropertyEnds(0, sh, w);
    PropertyEnds(1, sh, w);
    PropertyEnds(3, sh, w);
    PropertyEnds(4, sh, w);
  }

  /** The boost. */

  // Refused before any register is touched: during direct charging and against a source
  // on VBUS; unreadable status is an error of its own.
  lemma BoostRefused(sh: Shared, w: World, otgMa: bv8)
    requires Real(w) && w.sense(Primary).Some? && sh.otgActive == 0
    ensures sh.directCharging != 0 || (w.sense(Status1).Some? && w.sense(Status1).value % 2 == 1) ==>
              Run(92, SetOtg(true, otgMa), sh, w) == Some((sh, -16))
    ensures sh.directCharging == 0 && w.sense(Status1) == None ==>
              Run(92, SetOtg(true, otgMa), sh, w) == Some((sh, -5))
  {
    hide Run, SetOtg;
    SetOtgEnds(true, otgMa, sh, w);
  }

  // Asking for what is already so, or without a registered device.
  lemma BoostUnchanged(active: bool, sh: Shared, w: World, otgMa: bv8)
    requires Real(w) && (w.sense(Primary) == None || active == (sh.otgActive != 0))
    ensures Run(92, SetOtg(active, otgMa), sh, w) == Some((sh, if w.sense(Primary) == None then -517 else 0))
  {
    hide Run, SetOtg;
    SetOtgEnds(active, otgMa, sh, w);
  }

  lemma BoostBits(bst: bv8, cntl2: bv8, otgMa: bv8)
    ensures var b := Merged(bst, 0xcf, Setting(otgMa)); b & 0x0f == 6 && b >> 6 == otgMa & 3 && b & 0x30 == bst & 0x30
    ensures var c := Merged(cntl2, 0x0f, 7); c & 0x0f == 7 && c & 0xf0 == cntl2 & 0xf0
    ensures var d := Merged(cntl2, 0x0f, 5); d & 0x0f == 5 && d & 0xf0 == cntl2 & 0xf0
  {
  }

  lemma PathSet(cntl: bv8, sw: bv8)
    ensures (cntl | 0x02) & 0x02 != 0 && (cntl | 0x02) & 0xfd == cntl & 0xfd
    ensures ((sw & 0x40) | 0x89) & 0xbf == 0x89 && ((sw & 0x40) | 0x89) & 0x40 == sw & 0x40
    ensures (cntl & 0xfd) & 0x02 == 0 && (sw & 0x40) & 0xbf == 0
  {
  }

  // With nothing attached and every transfer through: Q4 open, the USB path by hand,
  // 5.1 V and the selected limit, boost mode, and the flag.
  lemma BoostComesUp(sh: Shared, w: World, otgMa: bv8, st: int)
    requires Real(w) && Wired(w) && w.sense(Primary).Some? && sh.otgActive == 0 && sh.directCharging == 0
    requires w.sense(Status1) == Some(st) && st % 2 == 0
    ensures var r := Run(92, SetOtg(true, otgMa), sh, w); r.Some? && r.value.1 == 0
    ensures
      var s := Run(92, SetOtg(true, otgMa), sh, w).value.0;
      && s.otgActive == 1 && s.Boosting() && !s.Q4Closed() && s.OtgPath()
      && s.bstCntl1 & 0x0f == 6 && s.bstCntl1 >> 6 == otgMa & 3
      && s.cntl2 & 0xf0 == sh.cntl2 & 0xf0 && s.bstCntl1 & 0x30 == sh.bstCntl1 & 0x30
      && s.cntl1 & 0xf7 == sh.cntl1 & 0xf7
      && s.muicCntl & 0xfd == sh.muicCntl & 0xfd && s.muicSw & 0x40 == sh.muicSw & 0x40
      && s == sh.(cntl1 := s.cntl1, cntl2 := s.cntl2, bstCntl1 := s.bstCntl1, muicCntl := s.muicCntl,
                  muicSw := s.muicSw, otgActive := 1)
  {
    hide Run, SetOtg, Merged, Setting;
    SetOtgEnds(true, otgMa, sh, w);
    Q4Bit(sh.cntl1);
    BoostBits(sh.bstCntl1, sh.cntl2, otgMa);
    PathSet(sh.muicCntl, sh.muicSw);
  }

  // Success means all of it, and every register on the way answered.
  predicate Answered(w: World) {
    && w.canRead(MuicCntl) && w.canWrite(MuicCntl) && w.canRead(MuicSw) && w.canWrite(MuicSw)
    && w.canRead(Cntl1) && w.canRead(BstCntl1) && w.canRead(Cntl2)
  }

  lemma BoostSucceedsWhole(sh: Shared, w: World, otgMa: bv8)
    requires Real(w) && w.sense(Primary).Some? && sh.otgActive == 0
    requires var r := Run(92, SetOtg(true, otgMa), sh, w); r.Some? && r.value.1 == 0
    ensures
      var s := Run(92, SetOtg(true, otgMa), sh, w).value.0;
      Answered(w) && s.otgActive == 1 && s.Boosting() && !s.Q4Closed() && s.OtgPath() && s.bstCntl1 & 0x0f == 6
  {
    hide Run, SetOtg, Boosted;
    SetOtgEnds(true, otgMa, sh, w);
    BoostedWhole(sh, w, otgMa);
  }

  lemma BoostedWhole(sh: Shared, w: World, otgMa: bv8)
    requires Boosted(sh, w, otgMa).1 == 0
    ensures var s := Boosted(sh, w, otgMa).0;
      Answered(w) && s.otgActive == 1 && s.Boosting() && !s.Q4Closed() && s.OtgPath() && s.bstCntl1 & 0x0f == 6
  {
    hide PathOff, Merged, Setting;
    PathSet(sh.muicCntl, sh.muicSw);
    Q4Bit(sh.cntl1);
    BoostBits(sh.bstCntl1, sh.cntl2, otgMa);
  }

  // Where the failed way up has left the switch.
  predicate PathBack(b: Shared, w: World) {
    w.canRead(MuicCntl) && w.canWrite(MuicCntl) && w.canRead(MuicSw) && w.canWrite(MuicSw) ==>
      b.muicCntl & 0x02 == 0 && b.muicSw & 0xbf == 0
  }

  lemma PathOffBack(sh: Shared, w: World)
    ensures var b := PathOff(sh, w).0;
      PathBack(b, w) && b == sh.(muicCntl := b.muicCntl, muicSw := b.muicSw)
  {
    PathSet(sh.muicCntl, sh.muicSw);
  }

  lemma UpdatedKeeps(sh: Shared, w: World, reg: Reg, mask: bv8, val: bv8)
    ensures var u := Updated(sh, w, reg, mask, val);
      && SameFlags(sh, u.0)
      && (reg != Cntl2 ==> u.0.cntl2 == sh.cntl2) && (u.1 != 0 ==> u.0 == sh)
  {
    hide Merged;
    WithRegKeeps(sh, reg, Merged(sh.RegVal(reg), mask, val));
    SameReg(sh, reg);
  }

  lemma WithRegKeeps(sh: Shared, reg: Reg, v: bv8)
    ensures SameFlags(sh, sh.WithReg(reg, v)) && (reg != Cntl2 ==> sh.WithReg(reg, v).cntl2 == sh.cntl2)
  {
  }

  lemma BoostedUndone(sh: Shared, w: World, otgMa: bv8)
    requires Boosted(sh, w, otgMa).1 != 0
    ensures var b := Boosted(sh, w, otgMa).0;
      b.otgActive == sh.otgActive && b.cntl2 == sh.cntl2 && PathBack(b, w)
  {
    hide PathOff, PathOn, Updated, PathBack;
    var path := PathOn(sh, w);
    PathOnKeeps(sh, w);
    PathOffBack(path.0, w);
    var q4 := Updated(path.0, w, Cntl1, 0x08, 0);
    UpdatedKeeps(path.0, w, Cntl1, 0x08, 0);
    PathOffBack(q4.0, w);
    var tuned := Updated(q4.0, w, BstCntl1, 0xcf, Setting(otgMa));
    UpdatedKeeps(q4.0, w, BstCntl1, 0xcf, Setting(otgMa));
    PathOffBack(tuned.0, w);
    UpdatedKeeps(tuned.0, w, Cntl2, 0x0f, 7);
    PathOffBack(Updated(tuned.0, w, Cntl2, 0x0f, 7).0, w);
  }

  lemma PathOnKeeps(sh: Shared, w: World)
    ensures var b := PathOn(sh, w).0; b == sh.(muicCntl := b.muicCntl, muicSw := b.muicSw)
  {
  }

  // Any lost transfer: an error, the flag and the boost as they were, and the automatic
  // path back wherever the switch can be reached.
  lemma BoostUndone(sh: Shared, w: World, otgMa: bv8)
    requires Real(w) && w.sense(Primary).Some? && sh.otgActive == 0
    requires var r := Run(92, SetOtg(true, otgMa), sh, w); r.Some? && r.value.1 != 0
    ensures
      var s := Run(92, SetOtg(true, otgMa), sh, w).value.0;
      s.otgActive == 0 && s.cntl2 == sh.cntl2 && (s == sh || PathBack(s, w))
  {
    hide Run, SetOtg, Boosted, PathBack;
    SetOtgEnds(true, otgMa, sh, w);
    if Boosted(sh, w, otgMa).1 != 0 { BoostedUndone(sh, w, otgMa); }
    BoostedSucceeds(sh, w, otgMa);
  }

  lemma BoostedSucceeds(sh: Shared, w: World, otgMa: bv8)
    ensures Boosted(sh, w, otgMa).1 == 0 || Boosted(sh, w, otgMa).1 == -5
  {
    hide PathOff, Merged;
  }

  // The tablet after the boost: charging mode, flag down, automatic path.
  function Unboosted(sh: Shared): Shared {
    sh.(cntl2 := Merged(sh.cntl2, 0x0f, 5), otgActive := 0, muicCntl := sh.muicCntl & 0xfd, muicSw := sh.muicSw & 0x40)
  }

  lemma OffIs(sh: Shared, w: World)
    requires Wired(w)
    ensures OtgOffResult(sh, w) == if RawOnline(w) <= 0 then (Unboosted(sh), 0) else Configured(Unboosted(sh), w)
  {
    hide Configured, Merged, Updated;
    BoostIsOff(sh, w);
  }

  // Off again; with a source on VBUS the charger is programmed as any other time.
  lemma BoostGoesDown(sh: Shared, w: World, otgMa: bv8)
    requires Real(w) && Wired(w) && w.sense(Primary).Some? && sh.otgActive != 0
    ensures Unboosted(sh).cntl2 & 0x0f == 5 && Unboosted(sh).muicCntl & 0x02 == 0 && Unboosted(sh).muicSw & 0xbf == 0
    ensures Run(92, SetOtg(false, otgMa), sh, w)
         == if w.sense(Status1).Some? && w.sense(Status1).value % 2 == 1 then Run(92, Configure(), Unboosted(sh), w)
            else Some((Unboosted(sh), 0))
  {
    hide Run, SetOtg, Configured, Configure, OtgOffResult;
    SetOtgEnds(false, otgMa, sh, w);
    OffIs(sh, w);
    UnboostedBits(sh);
    hide Unboosted;
    ConfigureRuns(Unboosted(sh), w);
  }

  // The boost off but the switch out of reach: reported, and nothing is programmed.
  lemma BoostDownFails(sh: Shared, w: World, otgMa: bv8)
    requires Real(w) && w.sense(Primary).Some? && sh.otgActive != 0
    ensures
      var down := sh.(cntl2 := Merged(sh.cntl2, 0x0f, 5), otgActive := 0);
      var r := Run(92, SetOtg(false, otgMa), sh, w);
      && (!w.canRead(Cntl2) ==> r == Some((sh, -5)))
      && (w.canRead(Cntl2) && w.canWrite(Cntl2) && !w.canWrite(MuicSw) ==> r == Some((down, -5)))
      && (w.canRead(Cntl2) && w.canWrite(Cntl2) && w.canRead(MuicSw) && w.canWrite(MuicSw) && !w.canWrite(MuicCntl) ==>
            r == Some((down.(muicSw := sh.muicSw & 0x40), -5)))
  {
    hide Run, SetOtg, Merged, Configured;
    SetOtgEnds(false, otgMa, sh, w);
  }

  lemma UnboostedBits(sh: Shared)
    ensures Unboosted(sh).cntl2 & 0x0f == 5 && Unboosted(sh).muicCntl & 0x02 == 0 && Unboosted(sh).muicSw & 0xbf == 0
  {
    hide Merged;
    BoostBits(sh.bstCntl1, sh.cntl2, 0);
    PathSet(sh.muicCntl, sh.muicSw);
  }

  lemma BoostIsOff(sh: Shared, w: World)
    requires Wired(w)
    ensures var down := Updated(sh, w, Cntl2, 0x0f, 5); down == (sh.(cntl2 := Merged(sh.cntl2, 0x0f, 5)), 0)
  {
    hide Merged;
  }

  /** Direct charging and contracts. */

  // Direct charging opens Q4 for a battery between 10 and 42 degrees and is refused
  // otherwise, nothing touched.
  lemma DirectStarts(sh: Shared, w: World)
    requires Real(w) && Wired(w) && w.sense(Primary).Some?
    ensures
      Run(92, SetDirectCharge(true), sh, w)
      == match TempIn(w)
         case None => Some((sh, -5))
         case Some(t) =>
           if 100 <= t < 420 then Some((sh.(directCharging := 1, cntl1 := Merged(sh.cntl1, 0x08, 0)), 0))
           else Some((sh, -34))
    ensures Merged(sh.cntl1, 0x08, 0) & 0x08 == 0
  {
    hide Run, SetDirectCharge, Merged, TempIn;
    SetDirectEnds(true, sh, w);
    Q4Bit(sh.cntl1);
    if TempIn(w).Some? { Q4Opens(sh.(directCharging := 1), w); }
  }

  lemma Q4Opens(sh: Shared, w: World)
    requires Wired(w)
    ensures Updated(sh, w, Cntl1, 0x08, 0) == (sh.(cntl1 := Merged(sh.cntl1, 0x08, 0)), 0)
  {
  }

  // Where Q4 cannot be reached the flag is down again.
  lemma DirectFails(sh: Shared, w: World)
    requires Real(w) && w.sense(Primary).Some? && !w.canRead(Cntl1)
    requires TempIn(w).Some? && 100 <= TempIn(w).value < 420
    ensures Run(92, SetDirectCharge(true), sh, w) == Some((sh.(directCharging := 0), -5))
  {
    hide Run, SetDirectCharge, TempIn;
    SetDirectEnds(true, sh, w);
  }

  // The way back: flag down, and with a source on VBUS the charger programmed.
  lemma DirectEnds(sh: Shared, w: World)
    requires Real(w) && w.sense(Primary).Some?
    ensures
      var off := sh.(directCharging := 0);
      Run(92, SetDirectCharge(false), sh, w)
      == if sh.otgActive == 0 && w.sense(Status1).Some? && w.sense(Status1).value % 2 == 1
         then Run(92, Configure(), off, w) else Some((off, 0))
  {
    hide Run, SetDirectCharge, Configured, Configure;
    SetDirectEnds(false, sh, w);
    ConfigureRuns(sh.(directCharging := 0), w);
  }

  // A contract is stored if it is none at all or lies between 5 and 9 V, up to 3 A; it is
  // programmed at once with a source on VBUS and no direct charging.
  lemma ContractStored(mv: nat, ma: nat, sh: Shared, w: World)
    requires Real(w) && w.sense(Primary).Some?
    ensures
      var stored := sh.(typecMv := mv, typecMa := ma);
      var fits := (mv == 0 || 5000 <= mv <= 9000) && ma <= 3000;
      var now := mv > 0 && ma > 0 && sh.directCharging == 0 && sh.otgActive == 0
                 && w.sense(Status1).Some? && w.sense(Status1).value % 2 == 1;
      Run(92, SetPdContract(mv, ma), sh, w)
      == if !fits then Some((sh, -34)) else if now then Run(92, Configure(), stored, w) else Some((stored, 0))
  {
    hide Run, SetPdContract, Configured, Configure;
    SetPdEnds(mv, ma, sh, w);
    ConfigureRuns(sh.(typecMv := mv, typecMa := ma), w);
  }

  // The sysfs switch programs the charger exactly when it changes, and reports success.
  lemma SwitchStored(enabled: bool, sh: Shared, w: World)
    requires Real(w)
    ensures
      var flipped := sh.(fastCharge := if enabled then 1 else 0);
      var r := Run(92, FastChargeStore(enabled), sh, w);
      && Run(92, Configure(), flipped, w).Some?
      && (enabled == (sh.fastCharge != 0) ==> r == Some((sh, 0)))
      && (enabled != (sh.fastCharge != 0) ==> r == Some((Run(92, Configure(), flipped, w).value.0, 0)))
  {
    hide Run, FastChargeStore, Configured, Configure;
    SwitchStoreEnds(enabled, sh, w);
    ConfigureRuns(sh.(fastCharge := if enabled then 1 else 0), w);
  }

  /** The poll. */

  // Pulled out: Q4 is opened and nothing is programmed.
  lemma UnpluggedOpensQ4(sh: Shared, w: World, st: int)
    requires Real(w) && Wired(w) && sh.otgActive == 0 && sh.lastOnline != 0
    requires w.sense(Status1) == Some(st) && st % 2 == 0
    ensures Run(92, PollWork(), sh, w)
         == Some((sh.(pollCount := (sh.pollCount + 1) % 0x1_0000_0000, lastOnline := 0,
                      cntl1 := Merged(sh.cntl1, 0x08, 0)), 0))
    ensures Merged(sh.cntl1, 0x08, 0) & 0x08 == 0
  {
    hide Run, PollWork, Merged, StatusIn;
    PollEnds(sh, w);
    Q4Bit(sh.cntl1);
    Q4Opens(sh.(pollCount := (sh.pollCount + 1) % 0x1_0000_0000, lastOnline := 0), w);
  }

  // What the poll found before any programming.
  function Counted(sh: Shared, w: World): Shared {
    sh.(pollCount := (sh.pollCount + 1) % 0x1_0000_0000, lastOnline := 1,
        thermalState := if TempIn(w).None? then sh.thermalState else Severity(ThermalIn(sh, w)))
  }

  // Source present, thermal state unchanged: Q4 found open is recovered exactly while the
  // charger reports VBUS without charging, outside direct charging and STOP.
  lemma PollRecovers(sh: Shared, w: World, st1: int, st2: int)
    requires Real(w) && Wired(w) && sh.otgActive == 0
    requires w.sense(Status1) == Some(st1) && st1 % 2 == 1 && w.sense(Status2) == Some(st2)
    requires Counted(sh, w).thermalState == sh.thermalState
    ensures
      var lost := !sh.Q4Closed() && st2 / 32 % 2 == 0 && st2 / 8 % 2 == 0
                  && sh.directCharging == 0 && ThermalOf(sh.thermalState) != Stop;
      var seen := Counted(sh, w).(lastOnline := sh.lastOnline);
      var r := Run(92, PollWork(), sh, w);
      && r.Some? && r.value.1 == 0 && Run(92, Configure(), seen, w).Some?
      && r.value.0 == (if lost then Run(92, Configure(), seen, w).value.0 else seen)
                      .(lastOnline := if sh.lastOnline == 0 then 1 else sh.lastOnline)
  {
    hide Run, PollWork, Configured, Configure, TempIn;
    PollEnds(sh, w);
    var seen := Counted(sh, w).(lastOnline := sh.lastOnline);
    ConfigureRuns(seen, w);
    ConfiguredKeeps(seen, w);
  }

  lemma ConfiguredKeeps(sh: Shared, w: World)
    ensures Configured(sh, w).0.lastOnline == sh.lastOnline && Configured(sh, w).0.otgActive == sh.otgActive
    ensures Configured(sh, w).0.directCharging == sh.directCharging
  {
    hide Programmed, Updated, TempIn, SourceIn, InputMa, PackMa, NextThermal;
    if sh.otgActive == 0 && SourceIn(sh, w).Some? {
      var s, th, fast := SourceIn(sh, w).value, ThermalIn(sh, w), sh.fastCharge != 0;
      var warm := if TempIn(w).None? then sh else sh.(thermalState := Severity(th));
      UpdatedKeeps(warm, w, Cntl1, 0x08, 0);
      ProgrammedKeeps(warm, w, InputMa(fast, sh.typecMv, sh.typecMa, s), PackMa(fast, sh.typecMv, sh.typecMa, s, th));
    }
  }

  predicate SameFlags(a: Shared, b: Shared) {
    a.lastOnline == b.lastOnline && a.otgActive == b.otgActive && a.directCharging == b.directCharging
  }

  lemma ClosedKeeps(sh: Shared, w: World, inputMa: nat)
    ensures SameFlags(sh, Closed(sh, w, inputMa).0)
  {
    hide Updated, InputCode;
    UpdatedKeeps(sh, w, Cntl1, 0x08, 0x08);
  }

  lemma FloatedKeeps(sh: Shared, w: World, inputMa: nat)
    ensures SameFlags(sh, Floated(sh, w, inputMa).0)
  {
    hide Updated, Closed, FloatCode;
    if sh.floatUv > 0 {
      UpdatedKeeps(sh, w, ChgCntl4, 0x3f, FloatCode(sh.floatUv));
      ClosedKeeps(Updated(sh, w, ChgCntl4, 0x3f, FloatCode(sh.floatUv)).0, w, inputMa);
    } else {
      ClosedKeeps(sh, w, inputMa);
    }
  }

  lemma ProgrammedKeeps(sh: Shared, w: World, inputMa: nat, packMa: nat)
    ensures SameFlags(sh, Programmed(sh, w, inputMa, packMa).0)
  {
    hide Floated, InputCode, PackCode;
    FloatedKeeps(sh.(vbusCntl := InputCode(500), chgCntl2 := PackCode(packMa)), w, inputMa);
  }

  // Thermal state changed while a source is present: the charger is programmed for it.
  lemma PollReprograms(sh: Shared, w: World, st: int)
    requires Real(w) && Wired(w) && sh.otgActive == 0 && sh.lastOnline != 0 && sh.directCharging != 0
    requires w.sense(Status1) == Some(st) && st % 2 == 1
    requires Counted(sh, w).thermalState != sh.thermalState
    ensures
      var seen := Counted(sh, w).(lastOnline := sh.lastOnline);
      var c := Run(92, Configure(), seen, w);
      c.Some? && Run(92, PollWork(), sh, w) == Some((c.value.0, 0))
  {
    hide Run, PollWork, Configured, Configure, TempIn, StatusIn;
    PollEnds(sh, w);
    var seen := Counted(sh, w).(lastOnline := sh.lastOnline);
    ConfigureRuns(seen, w);
    ConfiguredKeeps(seen, w);
  }
}
