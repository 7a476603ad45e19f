/**
 * The battery driver with callbacks run one at a time and every transfer
 * succeeding: what the thermal state says about Q4 and the charge current.
 */
module Sm5714Thermal {
  import opened Wrappers
  import opened Sm5714Codes
  import opened Sm5714Machine
  import opened Sm5714Battery

  /** Running one routine to its end. */

  // The i-th reading the hardware will give; an impossible value reads as 0.
  function Reading(o: nat -> int, i: nat, source: Sensor): int {
    if Plausible(source, o(i)) then o(i) else 0
  }

  // Runs p with budget n; None when the budget is too small.
  function Exec(n: nat, p: Prog, sh: Shared, o: nat -> int, i: nat): Option<(Shared, nat)>
    decreases n
  {
    if p.Done? then Some((sh, i))
    else if n == 0 then None
    else match p
      case Lock(_, next) => Exec(n - 1, next, sh, o, i)
      case Unlock(_, next) => Exec(n - 1, next, sh, o, i)
      case Read(r, f) => Exec(n - 1, f(Some(sh.RegVal(r))), sh, o, i)
      case Write(r, v, f) => Exec(n - 1, f(true), sh.WithReg(r, v), o, i)
      case Sense(source, f) => Exec(n - 1, f(Some(Reading(o, i, source))), sh, o, i + 1)
      case Get(fd, k) => Exec(n - 1, k(sh.FieldVal(fd)), sh, o, i)
      case Set(fd, v, next) => Exec(n - 1, next, sh.WithField(fd, v), o, i)
  }

  // Whatever the hardware reads, p ends within n accesses in a state that is ok.
  ghost predicate After(n: nat, p: Prog, sh: Shared, ok: Shared -> bool)
    decreases n
  {
    if p.Done? then ok(sh) else n > 0 && AfterStep(n, p, sh, ok)
  }

  ghost predicate AfterStep(n: nat, p: Prog, sh: Shared, ok: Shared -> bool)
    requires n > 0 && !p.Done?
    decreases n, 0
  {
    match p
    case Lock(_, next) => After(n - 1, next, sh, ok)
    case Unlock(_, next) => After(n - 1, next, sh, ok)
    case Read(r, f) => After(n - 1, f(Some(sh.RegVal(r))), sh, ok)
    case Write(r, v, f) => After(n - 1, f(true), sh.WithReg(r, v), ok)
    case Sense(source, f) => forall v :: Plausible(source, v) ==> After(n - 1, f(Some(v)), sh, ok)
    case Get(fd, k) => After(n - 1, k(sh.FieldVal(fd)), sh, ok)
    case Set(fd, v, next) => After(n - 1, next, sh.WithField(fd, v), ok)
  }

  lemma {:induction false} ExecAfter(n: nat, p: Prog, sh: Shared, ok: Shared -> bool, o: nat -> int, i: nat)
    requires After(n, p, sh, ok)
    ensures Exec(n, p, sh, o, i).Some? && ok(Exec(n, p, sh, o, i).value.0)
    decreases n
  {
    match p
    case Done(_) =>
    case Lock(_, next) => ExecAfter(n - 1, next, sh, ok, o, i);
    case Unlock(_, next) => ExecAfter(n - 1, next, sh, ok, o, i);
    case Read(r, f) => ExecAfter(n - 1, f(Some(sh.RegVal(r))), sh, ok, o, i);
    case Write(r, v, f) => ExecAfter(n - 1, f(true), sh.WithReg(r, v), ok, o, i);
    case Sense(source, f) => ExecAfter(n - 1, f(Some(Reading(o, i, source))), sh, ok, o, i + 1);
    case Get(fd, k) => ExecAfter(n - 1, k(sh.FieldVal(fd)), sh, ok, o, i);
    case Set(fd, v, next) => ExecAfter(n - 1, next, sh.WithField(fd, v), ok, o, i);
  }

  ghost predicate Then<T(!new)>(n: nat, k: T -> Prog, sh: Shared, ok: Shared -> bool) {
    forall r: T, m: nat :: m >= n ==> After(m, k(r), sh, ok)
  }

  /** Readings change nothing. */

  lemma {:induction false} FgReadSramAfter(n: nat, m: nat, k: Option<int> -> Prog, sh: Shared, ok: Shared -> bool)
    requires m >= n + 4
    requires forall v, q: nat :: q >= n ==> After(q, k(Some(v)), sh, ok)
    ensures After(m, FgReadSram(k), sh, ok)
  {
    var sel := FgReadSram(k).next;
    forall v ensures After(m - 2, sel.onSense(Some(v)), sh, ok) {
      var data := sel.onSense(Some(v));
      forall raw ensures After(m - 3, data.onSense(Some(raw)), sh, ok) {}
    }
    assert After(m - 1, sel, sh, ok);
  }

  lemma {:induction false} GaugeTempAfter(n: nat, m: nat, k: Option<int> -> Prog, sh: Shared, ok: Shared -> bool)
    requires m >= n + 4
    requires forall v, q: nat :: q >= n ==> After(q, k(Some(v)), sh, ok)
    ensures After(m, GaugeTemp(k), sh, ok)
  {
    FgReadSramAfter(n, m, (raw: Option<int>) => k(if raw.None? then None else Some(FgTemp(raw.value))), sh, ok);
  }

  lemma {:induction false} PackTempAfter(n: nat, m: nat, temp: int, k: Option<int> -> Prog, sh: Shared,
        ok: Shared -> bool)
    requires m >= n + 4
    requires forall v, q: nat :: q >= n ==> After(q, k(Some(v)), sh, ok)
    ensures After(m, PackTemp(temp, k), sh, ok)
  {
    GaugeTempAfter(n, m, k, sh, ok);
  }

  lemma {:induction false} GetTempAfter(n: nat, m: nat, k: Option<int> -> Prog, sh: Shared, ok: Shared -> bool)
    requires m >= n + 5
    requires forall v, q: nat :: q >= n ==> After(q, k(Some(v)), sh, ok)
    ensures After(m, GetTemp(k), sh, ok)
  {
    forall mc ensures After(m - 1, GetTemp(k).onSense(Some(mc)), sh, ok) {
      TempAfter(n, m - 1, mc, k, sh, ok);
    }
    SenseAfter(m, Thermistor, GetTemp(k).onSense, sh, ok);
  }

  lemma {:induction false} TempAfter(n: nat, m: nat, mc: int, k: Option<int> -> Prog, sh: Shared, ok: Shared -> bool)
    requires m >= n + 4
    requires forall v, q: nat :: q >= n ==> After(q, k(Some(v)), sh, ok)
    ensures After(m, GetTemp(k).onSense(Some(mc)), sh, ok)
  {
    PackTempAfter(n, m, RoundClosest100(mc), k, sh, ok);
  }

  lemma {:induction false} SenseAfter(m: nat, source: Sensor, f: Option<int> -> Prog, sh: Shared, ok: Shared -> bool)
    requires m > 0 && forall v :: Plausible(source, v) ==> After(m - 1, f(Some(v)), sh, ok)
    ensures After(m, Sense(source, f), sh, ok)
  {
  }

  lemma {:induction false} ReadAfter(m: nat, reg: Reg, f: Option<bv8> -> Prog, sh: Shared, ok: Shared -> bool)
    requires m > 0 && After(m - 1, f(Some(sh.RegVal(reg))), sh, ok)
    ensures After(m, Read(reg, f), sh, ok)
  {
  }

  lemma {:induction false} GetCapacityAfter(n: nat, m: nat, k: int -> Prog, sh: Shared, ok: Shared -> bool)
    requires m >= n + 4 && Then(n, k, sh, ok)
    ensures After(m, GetCapacity(k), sh, ok)
  {
    FgReadSramAfter(n, m, (raw: Option<int>) =>
      if raw.None? then k(EIO)
      else k(if raw.value * 10 / 256 / 10 > 100 then 100 else raw.value * 10 / 256 / 10), sh, ok);
  }

  // Online is never reported while the boost flag is set, and never fails.
  lemma {:induction false} GetOnlineAfter(n: nat, m: nat, k: int -> Prog, sh: Shared, ok: Shared -> bool)
    requires m >= n + 2
    requires forall r, q: nat :: q >= n && r >= 0 && (r > 0 ==> sh.otgActive == 0) ==> After(q, k(r), sh, ok)
    ensures After(m, GetOnline(k), sh, ok)
  {
    if sh.otgActive == 0 {
      var raw := GetOnlineRaw(k);
      forall v | Plausible(Status1, v) ensures After(m - 2, raw.onSense(Some(v)), sh, ok) {}
      assert After(m - 1, raw, sh, ok);
    }
  }

  lemma {:induction false} GetUsbTypeAfter(n: nat, m: nat, k: int -> Prog, sh: Shared, ok: Shared -> bool)
    requires m >= n + 4
    requires forall r, q: nat :: q >= n && r >= 0 ==> After(q, k(r), sh, ok)
    ensures After(m, GetUsbType(k), sh, ok)
  {
    forall online, q: nat | q >= n + 2 && online >= 0 ensures After(q, UsbTypeWhen(online, k), sh, ok) {
      var p := UsbTypeAt(sh.typecMv, k);
      if sh.typecMv <= 5000 {
        forall v ensures After(q - 2, p.onSense(Some(v)), sh, ok) {}
      }
      if online > 0 { assert After(q - 1, p, sh, ok); }
    }
    GetOnlineAfter(n + 2, m, online => UsbTypeWhen(online, k), sh, ok);
  }

  lemma {:induction false} GetStatusAfter(n: nat, m: nat, k: int -> Prog, sh: Shared, ok: Shared -> bool)
    requires m >= n + 4 && Then(n, k, sh, ok)
    ensures After(m, GetStatus(k), sh, ok)
  {
    if sh.otgActive == 0 {
      var st := GetStatus(k).onGet(0);
      forall v1 ensures After(m - 2, st.onSense(Some(v1)), sh, ok) {
        var st2 := st.onSense(Some(v1));
        forall v2 ensures After(m - 3, st2.onSense(Some(v2)), sh, ok) {
          assert After(m - 4, st2.onSense(Some(v2)).onGet(sh.directCharging), sh, ok);
        }
        assert AfterStep(m - 2, st2, sh, ok);
      }
      assert After(m - 1, st, sh, ok);
    }
  }

  /** Register updates. */

  lemma {:induction false} UpdateBitsAfter(n: nat, m: nat, reg: Reg, mask: bv8, val: bv8, k: int -> Prog, sh: Shared,
        ok: Shared -> bool)
    requires m >= n + 2
    requires forall v: bv8, q: nat :: q >= n && v & mask == val & mask ==> After(q, k(0), sh.WithReg(reg, v), ok)
    ensures After(m, UpdateBits(reg, mask, val, k), sh, ok)
  {
    var v := Merge(sh.RegVal(reg), mask, val);
    MergeMasked(sh.RegVal(reg), mask, val);
    UpdateToAfter(n, m - 1, reg, mask, val, v, k, sh, ok);
  }

  lemma {:induction false} UpdateToAfter(n: nat, m: nat, reg: Reg, mask: bv8, val: bv8, v: bv8, k: int -> Prog,
        sh: Shared, ok: Shared -> bool)
    requires m >= n + 1 && v & mask == val & mask
    requires forall v: bv8, q: nat :: q >= n && v & mask == val & mask ==> After(q, k(0), sh.WithReg(reg, v), ok)
    ensures After(m, UpdateTo(reg, sh.RegVal(reg), v, k), sh, ok)
  {
    if v == sh.RegVal(reg) {
      SameReg(sh, reg);
    } else {
      assert After(m - 1, k(0), sh.WithReg(reg, v), ok);
    }
  }

  /** The thermal invariant. */

  // STOP keeps Q4 open; REDUCED with Q4 closed keeps the battery at or under 2.1 A.
  predicate ThermalOk(sh: Shared) {
    && (ThermalOf(sh.thermalState) == Stop ==> !sh.Q4Closed())
    && (ThermalOf(sh.thermalState) == Reduced && sh.Q4Closed() ==> FastCurrentUa(sh.chgCntl2 as int) <= 2_100_000)
  }

  // Q4 is closed exactly outside STOP.
  predicate Q4Follows(sh: Shared) { sh.Q4Closed() <==> ThermalOf(sh.thermalState) != Stop }

  // What configure_charging leaves behind: with the boost on, nothing changes;
  // otherwise the thermal invariant holds, and Q4 follows the thermal state, whatever
  // was there before.
  predicate Configured(a: Shared, b: Shared) {
    && (a.otgActive != 0 ==> b == a)
    && (a.otgActive == 0 ==> ThermalOk(b) && Q4Follows(b))
    && b.otgActive == a.otgActive && b.directCharging == a.directCharging
  }

  // k is ok after any result of configure_charging.
  ghost predicate ThenConfigured(n: nat, k: int -> Prog, a: Shared, ok: Shared -> bool) {
    forall r, m: nat, b: Shared :: m >= n && Configured(a, b) ==> After(m, k(r), b, ok)
  }

  // Inside configure_charging, a being the state it was called in.
  predicate Busy(a: Shared, sh: Shared) {
    a.otgActive == 0 && sh.otgActive == 0 && sh.directCharging == a.directCharging
  }

  lemma {:induction false} PackCodeDecodes(packMa: nat)
    requires packMa in {500, 1500, 2100}
    ensures FastCurrentUa((FastCurrentReg(packMa) as bv8) as int) <= 2_100_000
  {
    FastCurrentNeverAbove(packMa);
  }

  predicate PackOk(sh: Shared) {
    ThermalOf(sh.thermalState) != Stop
    && (ThermalOf(sh.thermalState) == Reduced ==> FastCurrentUa(sh.chgCntl2 as int) <= 2_100_000)
  }

  lemma {:induction false} CloseQ4After(n: nat, m: nat, inputMa: nat, k: int -> Prog, a: Shared, sh: Shared,
        ok: Shared -> bool)
    requires m >= n + 4 && Busy(a, sh) && ThenConfigured(n, k, a, ok) && PackOk(sh)
    ensures After(m, CloseQ4(0, inputMa, k), sh, ok)
  {
    forall v: bv8, q: nat | q >= n + 2 && v & 0x08 == 0x08 & 0x08
      ensures After(q, RaiseInput(0, inputMa, k), sh.WithReg(Cntl1, v), ok)
    {
      var done := sh.WithReg(Cntl1, v).WithReg(VbusCntl, InputCurrentReg(inputMa) as bv8);
      assert Configured(a, done);
      assert After(q - 1, ConfigureOut(0, k), done, ok);
    }
    UpdateBitsAfter(n + 2, m, Cntl1, 0x08, 0x08, r => RaiseInput(r, inputMa, k), sh, ok);
  }

  lemma {:induction false} FloatAfter(n: nat, m: nat, inputMa: nat, k: int -> Prog, a: Shared, sh: Shared,
        ok: Shared -> bool)
    requires m >= n + 7 && Busy(a, sh) && ThenConfigured(n, k, a, ok) && PackOk(sh)
    ensures After(m, SetFloatVoltage(r => CloseQ4(r, inputMa, k)), sh, ok)
  {
    if sh.floatUv <= 0 {
      CloseQ4After(n, m - 1, inputMa, k, a, sh, ok);
    } else {
      forall v: bv8, q: nat | q >= n + 4 ensures After(q, CloseQ4(0, inputMa, k), sh.WithReg(ChgCntl4, v), ok) {
        CloseQ4After(n, q, inputMa, k, a, sh.WithReg(ChgCntl4, v), ok);
      }
      var code := BatRegOffset(sh.floatUv) as bv8;
      UpdateBitsAfter(n + 4, m - 1, ChgCntl4, 0x3f, code, r => CloseQ4(r, inputMa, k), sh, ok);
    }
  }

  lemma {:induction false} ProgramPackAfter(n: nat, m: nat, inputMa: nat, packMa: nat, k: int -> Prog, a: Shared,
        sh: Shared, ok: Shared -> bool)
    requires m >= n + 8 && Busy(a, sh) && ThenConfigured(n, k, a, ok)
    requires ThermalOf(sh.thermalState) != Stop
    requires ThermalOf(sh.thermalState) == Reduced ==> packMa in {500, 1500, 2100}
    ensures After(m, ProgramPack(inputMa, packMa, k), sh, ok)
  {
    hide SetFloatVoltage, CloseQ4;
    if ThermalOf(sh.thermalState) == Reduced { PackCodeDecodes(packMa); }
    FloatAfter(n, m - 1, inputMa, k, a, sh.WithReg(ChgCntl2, FastCurrentReg(packMa) as bv8), ok);
  }

  lemma {:induction false} ProgramAfter(n: nat, m: nat, budget: (nat, nat), k: int -> Prog, a: Shared, sh: Shared,
        ok: Shared -> bool)
    requires m >= n + 9 && Busy(a, sh) && ThenConfigured(n, k, a, ok)
    requires ThermalOf(sh.thermalState) != Stop
    requires ThermalOf(sh.thermalState) == Reduced ==> budget.1 in {500, 1500, 2100}
    ensures After(m, Program(budget, k), sh, ok)
  {
    ProgramPackAfter(n, m - 1, budget.0, budget.1, k, a, sh.WithReg(VbusCntl, InputCurrentReg(500) as bv8), ok);
  }

  lemma {:induction false} StopAfter(n: nat, m: nat, k: int -> Prog, a: Shared, sh: Shared, ok: Shared -> bool)
    requires m >= n + 3 && Busy(a, sh) && ThenConfigured(n, k, a, ok) && ThermalOf(sh.thermalState) == Stop
    ensures After(m, UpdateBits(Cntl1, 0x08, 0, r => ConfigureOut(r, k)), sh, ok)
  {
    forall v: bv8, q: nat | q >= n + 1 && v & 0x08 == 0 & 0x08
      ensures After(q, ConfigureOut(0, k), sh.WithReg(Cntl1, v), ok)
    {
      assert Configured(a, sh.WithReg(Cntl1, v));
    }
    UpdateBitsAfter(n + 1, m, Cntl1, 0x08, 0, r => ConfigureOut(r, k), sh, ok);
  }

  lemma {:induction false} ConfigureLimitsAfter(n: nat, m: nat, mv: int, ma: int, usbType: int, k: int -> Prog,
        a: Shared, sh: Shared, ok: Shared -> bool)
    requires m >= n + 10 && Busy(a, sh) && ThenConfigured(n, k, a, ok)
    ensures After(m, ConfigureLimits(ThermalOf(sh.thermalState), mv, ma, usbType, k), sh, ok)
  {
    var th := ThermalOf(sh.thermalState);
    if th == Stop {
      StopAfter(n, m, k, a, sh, ok);
    } else if Contract(mv, ma) {
      ProgramAfter(n, m - 1, Budgets(sh.fastCharge != 0, mv, ma, usbType, th), k, a, sh, ok);
    } else {
      ProgramAfter(n, m, Budgets(false, mv, ma, usbType, th), k, a, sh, ok);
    }
  }

  lemma {:induction false} ConfigureThermalAfter(n: nat, m: nat, th: Thermal, temp: int, mv: int, ma: int,
        usbType: int, k: int -> Prog, a: Shared, sh: Shared, ok: Shared -> bool)
    requires m >= n + 12 && Busy(a, sh) && ThenConfigured(n, k, a, ok)
    ensures After(m, ConfigureThermal(th, Some(temp), mv, ma, usbType, k), sh, ok)
  {
    var hot := NextThermal(ThermalOf(sh.thermalState), temp);
    ConfigureLimitsAfter(n, m - 2, mv, ma, usbType, k, a, sh.WithField(ThermalState, Severity(hot)), ok);
    assert After(m - 1, ConfigureHotter(hot, mv, ma, usbType, k), sh, ok);
  }

  lemma {:induction false} ConfigureForAfter(n: nat, m: nat, mv: int, ma: int, usbType: int, k: int -> Prog,
        a: Shared, sh: Shared, ok: Shared -> bool)
    requires m >= n + 18 && Busy(a, sh) && ThenConfigured(n, k, a, ok) && usbType >= 0
    ensures After(m, ConfigureFor(mv, ma, usbType, k), sh, ok)
  {
    var th := ThermalOf(sh.thermalState);
    forall temp, q: nat | q >= n + 12 ensures After(q, ConfigureThermal(th, Some(temp), mv, ma, usbType, k), sh, ok) {
      ConfigureThermalAfter(n, q, th, temp, mv, ma, usbType, k, a, sh, ok);
    }
    GetTempAfter(n + 12, m - 1, (temp: Option<int>) => ConfigureThermal(th, temp, mv, ma, usbType, k), sh, ok);
  }

  lemma {:induction false} ConfigureTypedAfter(n: nat, m: nat, mv: int, ma: int, k: int -> Prog, sh: Shared,
        ok: Shared -> bool)
    requires m >= n + 22 && sh.otgActive == 0 && ThenConfigured(n, k, sh, ok)
    ensures After(m, GetUsbType(usbType => ConfigureFor(mv, ma, usbType, k)), sh, ok)
  {
    forall usbType, q: nat | q >= n + 18 && usbType >= 0 ensures After(q, ConfigureFor(mv, ma, usbType, k), sh, ok) {
      ConfigureForAfter(n, q, mv, ma, usbType, k, sh, sh, ok);
    }
    GetUsbTypeAfter(n + 18, m, usbType => ConfigureFor(mv, ma, usbType, k), sh, ok);
  }

  lemma {:induction false} ConfigureChargingAfter(n: nat, m: nat, k: int -> Prog, sh: Shared, ok: Shared -> bool)
    requires m >= n + 26 && ThenConfigured(n, k, sh, ok)
    ensures After(m, ConfigureCharging(k), sh, ok)
  {
    var p := ConfigureCharging(k).next;
    if sh.otgActive != 0 {
      assert Configured(sh, sh);
      assert After(m - 2, ConfigureOut(EBUSY, k), sh, ok);
      assert After(m - 1, p, sh, ok);
    } else {
      ConfigureTypedAfter(n, m - 4, sh.typecMv, sh.typecMa, k, sh, ok);
      assert After(m - 3, p.onGet(0).onGet(sh.typecMv), sh, ok);
      assert After(m - 2, p.onGet(0), sh, ok);
      assert After(m - 1, p, sh, ok);
    }
  }

  /** Every routine keeps the thermal invariant. */

  // From any state that meets the invariant, k ends in one that does.
  ghost predicate KeepsOn(n: nat, k: int -> Prog) {
    forall r, m: nat, b: Shared :: m >= n && ThermalOk(b) ==> After(m, k(r), b, ThermalOk)
  }

  lemma {:induction false} ConfigureKeeps(n: nat, m: nat, k: int -> Prog, sh: Shared)
    requires m >= n + 26 && KeepsOn(n, k) && (sh.otgActive != 0 ==> ThermalOk(sh))
    ensures After(m, ConfigureCharging(k), sh, ThermalOk)
  {
    forall r, q: nat, b: Shared | q >= n && Configured(sh, b) ensures After(q, k(r), b, ThermalOk) {}
    ConfigureChargingAfter(n, m, k, sh, ThermalOk);
  }

  lemma {:induction false} ReleaseKeeps(m: nat, ret: int, sh: Shared)
    requires m >= 1 && ThermalOk(sh)
    ensures After(m, Unlock(Global, Done(ret)), sh, ThermalOk)
  {
  }

  lemma {:induction false} ConfigureReleaseKeeps(m: nat, sh: Shared)
    requires m >= 27 && ThermalOk(sh)
    ensures After(m, ConfigureCharging(r => Unlock(Global, Done(r))), sh, ThermalOk)
  {
    forall r, q: nat, b: Shared | q >= 1 && ThermalOk(b) ensures After(q, Unlock(Global, Done(r)), b, ThermalOk) {
      ReleaseKeeps(q, r, b);
    }
    ConfigureKeeps(1, m, r => Unlock(Global, Done(r)), sh);
  }

  lemma {:induction false} PdOnlineKeeps(m: nat, sh: Shared)
    requires m >= 30 && ThermalOk(sh)
    ensures After(m, PdOnline(), sh, ThermalOk)
  {
    forall online, q: nat | q >= 28 ensures After(q, PdWhen(online), sh, ThermalOk) {
      ConfigureReleaseKeeps(q - 1, sh);
      ReleaseKeeps(q - 1, 0, sh);
      ReleaseKeeps(q, 0, sh);
    }
    GetOnlineAfter(28, m, online => PdWhen(online), sh, ThermalOk);
  }

  lemma {:induction false} SetPdContractKeeps(m: nat, mv: nat, ma: nat, sh: Shared)
    requires m >= 34 && ThermalOk(sh)
    ensures After(m, SetPdContract(mv, ma), sh, ThermalOk)
  {
    var p := SetPdContract(mv, ma);
    if p.Lock? {
      var s1 := sh.WithField(TypecMv, mv);
      var s2 := s1.WithField(TypecMa, ma);
      ReleaseKeeps(m - 4, 0, s2);
      PdOnlineKeeps(m - 4, s2);
      assert After(m - 3, PdStore(mv, ma).next, s1, ThermalOk);
      assert After(m - 2, PdStore(mv, ma), sh, ThermalOk);
      assert AfterStep(m - 1, p.next, sh, ThermalOk);
    }
  }

  lemma {:induction false} DirectOnKeeps(m: nat, sh: Shared)
    requires m >= 12 && ThermalOk(sh)
    ensures After(m, DirectOn(), sh, ThermalOk)
  {
    forall temp, q: nat | q >= 7 ensures After(q, DirectWarm(Some(temp)), sh, ThermalOk) {
      ReleaseKeeps(q, ERANGE, sh);
      var s1 := sh.WithField(DirectCharging, 1);
      forall v: bv8, c: nat | c >= 2 && v & 0x08 == 0 & 0x08
        ensures After(c, DirectOpened(0), s1.WithReg(Cntl1, v), ThermalOk)
      {
        ReleaseKeeps(c - 1, 0, s1.WithReg(Cntl1, v));
      }
      UpdateBitsAfter(2, q - 2, Cntl1, 0x08, 0, r => DirectOpened(r), s1, ThermalOk);
      assert After(q - 1, DirectOpen(), s1, ThermalOk);
    }
    GetTempAfter(7, m, (temp: Option<int>) => DirectWarm(temp), sh, ThermalOk);
  }

  lemma {:induction false} DirectOffKeeps(m: nat, sh: Shared)
    requires m >= 30 && ThermalOk(sh)
    ensures After(m, DirectOff(), sh, ThermalOk)
  {
    var s1 := sh.WithField(DirectCharging, 0);
    forall online, q: nat | q >= 27 ensures After(q, DirectBack(online), s1, ThermalOk) {
      ReleaseKeeps(q, 0, s1);
      ConfigureReleaseKeeps(q, s1);
    }
    GetOnlineAfter(27, m - 1, online => DirectBack(online), s1, ThermalOk);
  }

  lemma {:induction false} SetDirectChargeKeeps(m: nat, active: bool, sh: Shared)
    requires m >= 32 && ThermalOk(sh)
    ensures After(m, SetDirectCharge(active), sh, ThermalOk)
  {
    hide DirectOn, DirectOff;
    DirectOnKeeps(m - 2, sh);
    DirectOffKeeps(m - 2, sh);
    var next := SetDirectCharge(active).next;
    forall v ensures After(m - 2, next.onSense(Some(v)), sh, ThermalOk) {}
    SenseAfter(m - 1, Primary, next.onSense, sh, ThermalOk);
  }

  lemma {:induction false} OtgBoostKeeps(m: nat, sh: Shared)
    requires m >= 5 && ThermalOk(sh)
    ensures After(m, OtgBoost(), sh, ThermalOk)
  {
    forall v: bv8, q: nat | q >= 3 ensures After(q, OtgBoosted(0), sh.WithReg(Cntl2, v), ThermalOk) {
      var s1 := sh.WithReg(Cntl2, v).WithField(OtgActive, 1);
      ReleaseKeeps(q - 2, 0, s1);
      assert After(q - 1, OtgBoosted(0).next, s1, ThermalOk);
    }
    UpdateBitsAfter(3, m, Cntl2, 0x0f, 0x07, r => OtgBoosted(r), sh, ThermalOk);
  }

  lemma {:induction false} OtgOpenKeeps(m: nat, otgMa: bv8, sh: Shared)
    requires m >= 9 && ThermalOk(sh)
    ensures After(m, OtgOpenQ4(0, otgMa), sh, ThermalOk)
  {
    forall v: bv8, q: nat | q >= 7 && v & 0x08 == 0 & 0x08
      ensures After(q, OtgSetting(0, otgMa), sh.WithReg(Cntl1, v), ThermalOk)
    {
      var s1 := sh.WithReg(Cntl1, v);
      forall b: bv8, c: nat | c >= 5 ensures After(c, OtgPower(0), s1.WithReg(BstCntl1, b), ThermalOk) {
        OtgBoostKeeps(c, s1.WithReg(BstCntl1, b));
      }
      UpdateBitsAfter(5, q, BstCntl1, 0xcf, BoostSetting(otgMa), r => OtgPower(r), s1, ThermalOk);
    }
    UpdateBitsAfter(7, m, Cntl1, 0x08, 0, r => OtgSetting(r, otgMa), sh, ThermalOk);
  }

  lemma {:induction false} MuicOnKeeps(m: nat, otgMa: bv8, sh: Shared)
    requires m >= 13 && ThermalOk(sh)
    ensures After(m, MuicOn(r => OtgOpenQ4(r, otgMa)), sh, ThermalOk)
  {
    hide OtgOpenQ4;
    var k := r => OtgOpenQ4(r, otgMa);
    var c := sh.muicCntl | 0x02;
    var s1 := sh.WithReg(MuicCntl, c);
    var w := (s1.muicSw & !0xbf) | 0x80 | 0x09;
    OtgOpenKeeps(m - 4, otgMa, s1.WithReg(MuicSw, w));
    assert After(m - 3, MuicOnSwitch(sh.muicCntl, w, k), s1, ThermalOk);
    assert After(m - 2, MuicOnPath(sh.muicCntl, k), s1, ThermalOk);
    assert After(m - 1, MuicOnBc12(sh.muicCntl, c, k), sh, ThermalOk);
  }

  lemma {:induction false} OtgOnKeeps(m: nat, otgMa: bv8, sh: Shared)
    requires m >= 16 && ThermalOk(sh)
    ensures After(m, OtgOn(otgMa), sh, ThermalOk)
  {
    ReleaseKeeps(m - 1, EBUSY, sh);
    var raw := GetOnlineRaw(online => OtgOffline(online, otgMa));
    forall v | Plausible(Status1, v) ensures After(m - 2, raw.onSense(Some(v)), sh, ThermalOk) {
      MuicOnKeeps(m - 3, otgMa, sh);
      ReleaseKeeps(m - 2, EBUSY, sh);
    }
    assert AfterStep(m - 1, raw, sh, ThermalOk);
  }

  lemma {:induction false} OtgOffTailKeeps(m: nat, ret: int, sh: Shared)
    requires m >= 28 && ThermalOk(sh)
    ensures After(m, OtgOffTail(ret), sh, ThermalOk)
  {
    ReleaseKeeps(m, ret, sh);
    if ret == 0 {
      var raw := GetOnlineRaw(online => OtgOffCharge(online));
      forall v | Plausible(Status1, v) ensures After(m - 1, raw.onSense(Some(v)), sh, ThermalOk) {
        ConfigureKeeps(0, m - 2, r => Done(r), sh);
      }
      assert AfterStep(m, raw, sh, ThermalOk);
    }
  }

  lemma {:induction false} MuicOffBc12Keeps(n: nat, m: nat, k: int -> Prog, sh: Shared)
    requires m >= n + 2 && KeepsOn(n, k) && ThermalOk(sh)
    ensures After(m, MuicOffBc12(k), sh, ThermalOk)
  {
    var c := sh.muicCntl & !0x02;
    assert ThermalOk(sh.WithReg(MuicCntl, c));
    assert After(m - 1, MuicOffTo(c, k), sh, ThermalOk);
  }

  lemma {:induction false} MuicOffKeeps(n: nat, m: nat, k: int -> Prog, sh: Shared)
    requires m >= n + 4 && KeepsOn(n, k) && ThermalOk(sh)
    ensures After(m, MuicOff(k), sh, ThermalOk)
  {
    hide MuicOffBc12;
    var v := sh.muicSw & !0xbf;
    MuicOffBc12Keeps(n, m - 2, k, sh.WithReg(MuicSw, v));
    assert After(m - 1, MuicOffSwitch(v, k), sh, ThermalOk);
    ReadAfter(m, MuicSw, MuicOff(k).onRead, sh, ThermalOk);
  }

  lemma {:induction false} OtgPathOffKeeps(m: nat, sh: Shared)
    requires m >= 33 && ThermalOk(sh)
    ensures After(m, MuicOff(r => Unlock(Chg, OtgOffTail(r))), sh, ThermalOk)
  {
    hide OtgOffTail, MuicOff;
    forall r, q: nat, b: Shared | q >= 29 && ThermalOk(b) ensures After(q, Unlock(Chg, OtgOffTail(r)), b, ThermalOk) {
      OtgOffTailKeeps(q - 1, r, b);
    }
    MuicOffKeeps(29, m, r => Unlock(Chg, OtgOffTail(r)), sh);
  }

  lemma {:induction false} OtgOffKeeps(m: nat, sh: Shared)
    requires m >= 37 && ThermalOk(sh)
    ensures After(m, OtgOff(), sh, ThermalOk)
  {
    forall v: bv8, q: nat | q >= 34 ensures After(q, OtgUnboosted(0), sh.WithReg(Cntl2, v), ThermalOk) {
      OtgPathOffKeeps(q - 1, sh.WithReg(Cntl2, v).WithField(OtgActive, 0));
    }
    UpdateBitsAfter(34, m - 1, Cntl2, 0x0f, 0x05, r => OtgUnboosted(r), sh, ThermalOk);
  }

  lemma {:induction false} SetOtgKeeps(m: nat, active: bool, otgMa: bv8, sh: Shared)
    requires m >= 40 && ThermalOk(sh)
    ensures After(m, SetOtg(active, otgMa), sh, ThermalOk)
  {
    hide OtgOn, OtgOff;
    ReleaseKeeps(m - 3, 0, sh);
    OtgOnKeeps(m - 3, otgMa, sh);
    OtgOffKeeps(m - 3, sh);
    assert After(m - 2, OtgWhen(active, otgMa), sh, ThermalOk);
    var next := SetOtg(active, otgMa).next;
    forall v ensures After(m - 2, next.onSense(Some(v)), sh, ThermalOk) {}
    SenseAfter(m - 1, Primary, next.onSense, sh, ThermalOk);
  }

  lemma {:induction false} FlagQueriesKeep(m: nat, sh: Shared)
    requires m >= 4 && ThermalOk(sh)
    ensures After(m, IsOtgActive(), sh, ThermalOk) && After(m, FastChargeEnabled(), sh, ThermalOk)
  {
    ReleaseKeeps(m - 3, sh.otgActive, sh);
    var otg := IsOtgActive().next;
    forall v ensures After(m - 2, otg.onSense(Some(v)), sh, ThermalOk) {}
    assert AfterStep(m - 1, otg, sh, ThermalOk);
    var fast := FastChargeEnabled().next;
    forall v ensures After(m - 2, fast.onSense(Some(v)), sh, ThermalOk) {
      assert After(m - 3, Get(FastCharge, f => Done(f)), sh, ThermalOk);
    }
    assert AfterStep(m - 1, fast, sh, ThermalOk);
  }

  lemma {:induction false} FastChargeStoreKeeps(m: nat, enabled: bool, sh: Shared)
    requires m >= 28 && ThermalOk(sh)
    ensures After(m, FastChargeStore(enabled), sh, ThermalOk)
  {
    var p := FastChargeStore(enabled).onGet(sh.fastCharge);
    if p.Set? {
      ConfigureKeeps(0, m - 2, _ => Done(0), sh.WithField(FastCharge, if enabled then 1 else 0));
      assert AfterStep(m - 1, p, sh, ThermalOk);
    }
  }

  lemma {:induction false} FastChargeStoreFollows(enabled: bool, sh: Shared, ok: Shared -> bool)
    requires sh.otgActive == 0 && enabled != (sh.fastCharge != 0)
    requires forall s: Shared :: Q4Follows(s) && s.directCharging == sh.directCharging ==> ok(s)
    ensures After(92, FastChargeStore(enabled), sh, ok)
  {
    var s1 := sh.WithField(FastCharge, if enabled then 1 else 0);
    var p := FastChargeStore(enabled).onGet(sh.fastCharge);
    var k := (r: int) => Done(0);
    assert ThenConfigured(0, k, s1, ok);
    ConfigureChargingAfter(0, 90, k, s1, ok);
    assert p.next == ConfigureCharging(k);
    assert AfterStep(91, p, sh, ok);
  }

  // The switch during direct charging: flipping it with the boost off makes Q4 follow
  // the thermal state, whatever direct_charging says. Outside STOP it closes Q4
  // over a running pump.
  lemma {:induction false} SwitchIgnoresDirectCharge(enabled: bool, sh: Shared, o: nat -> int, i: nat)
    requires sh.otgActive == 0 && enabled != (sh.fastCharge != 0)
    ensures var r := Exec(92, FastChargeStore(enabled), sh, o, i);
      && r.Some? && r.value.0.directCharging == sh.directCharging
      && (r.value.0.Q4Closed() <==> ThermalOf(r.value.0.thermalState) != Stop)
  {
    var ok := (s: Shared) => Q4Follows(s) && s.directCharging == sh.directCharging;
    FastChargeStoreFollows(enabled, sh, ok);
    ExecAfter(92, FastChargeStore(enabled), sh, ok, o, i);
  }

  // poll_work.  Between its own thermal update and configure_charging the
  // invariant may fail; it is restored because online implies the boost is off.

  lemma {:induction false} PollOnlineKeeps(m: nat, online: int, sh: Shared)
    requires m >= 4 && ThermalOk(sh)
    ensures After(m, PollOnline(online), sh, ThermalOk)
  {
    if online >= 0 {
      var p := PollOnline(online).onGet(sh.lastOnline);
      if p.Set? {
        var s1 := sh.WithField(LastOnline, online);
        forall v: bv8, q: nat | v & 0x08 == 0 & 0x08 ensures After(q, Done(0), s1.WithReg(Cntl1, v), ThermalOk) {}
        UpdateBitsAfter(0, m - 2, Cntl1, 0x08, 0, _ => Done(0), s1, ThermalOk);
        assert AfterStep(m - 1, p, sh, ThermalOk);
      }
    }
  }

  lemma {:induction false} PollReopenKeeps(m: nat, online: int, sh: Shared)
    requires m >= 35 && ThermalOk(sh)
    ensures After(m, PollReopen(online), sh, ThermalOk)
  {
    PollOnlineKeeps(m - 1, online, sh);
    forall r, q: nat, b: Shared | q >= 8 && ThermalOk(b) ensures After(q, PollReopened(r, online), b, ThermalOk) {
      PollOnlineKeeps(q, online, b);
      forall c: nat | c >= 4 ensures After(c, PollOnline(online), b, ThermalOk) { PollOnlineKeeps(c, online, b); }
      GetStatusAfter(4, q, _ => PollOnline(online), b, ThermalOk);
    }
    ConfigureKeeps(8, m - 1, r => PollReopened(r, online), sh);
  }

  lemma {:induction false} PollRecoverKeeps(m: nat, status: int, online: int, sh: Shared)
    requires m >= 37 && ThermalOk(sh)
    ensures After(m, PollRecover(status, online), sh, ThermalOk)
  {
    PollOnlineKeeps(m, online, sh);
    PollOnlineKeeps(m - 1, online, sh);
    PollOnlineKeeps(m - 2, online, sh);
    PollReopenKeeps(m - 2, online, sh);
    var p := PollRecover(status, online);
    if online > 0 && status == NOT_CHARGING && sh.directCharging == 0 {
      assert After(m - 1, p.onGet(0), sh, ThermalOk);
    }
  }

  lemma {:induction false} PollChangedKeeps(m: nat, before: int, status: int, online: int, sh: Shared)
    requires m >= 68
    requires ThermalOk(sh) || (sh.otgActive == 0 && sh.thermalState != before)
    ensures After(m, PollChanged(before, status, online), sh, ThermalOk)
  {
    if sh.thermalState == before {
      PollRecoverKeeps(m - 1, status, online, sh);
    } else {
      forall q: nat, b: Shared | q >= 41 && ThermalOk(b) ensures After(q, PollRestatus(online), b, ThermalOk) {
        forall st, c: nat | c >= 37 ensures After(c, PollRecover(st, online), b, ThermalOk) {
          PollRecoverKeeps(c, st, online, b);
        }
        GetStatusAfter(37, q, st => PollRecover(st, online), b, ThermalOk);
      }
      ConfigureKeeps(41, m - 1, _ => PollRestatus(online), sh);
    }
  }

  lemma {:induction false} PollThermalKeeps(m: nat, status: int, online: int, sh: Shared)
    requires m >= 76 && ThermalOk(sh) && (online > 0 ==> sh.otgActive == 0)
    ensures After(m, PollThermal(status, online), sh, ThermalOk)
  {
    hide PollRecover, PollChanged;
    var before := sh.thermalState;
    PollRecoverKeeps(m - 1, status, online, sh);
    if online > 0 {
      forall temp, q: nat | q >= 70 ensures After(q, PollTemp(before, Some(temp), status, online), sh, ThermalOk) {
        var s1 := sh.WithField(ThermalState, Severity(NextThermal(ThermalOf(before), temp)));
        PollChangedKeeps(q - 2, before, status, online, s1);
        assert After(q - 1, PollTemp(before, Some(temp), status, online).onGet(before), sh, ThermalOk);
      }
      GetTempAfter(70, m - 1, (temp: Option<int>) => PollTemp(before, temp, status, online), sh, ThermalOk);
    }
  }

  lemma {:induction false} PollCountedKeeps(m: nat, status: int, online: int, sh: Shared)
    requires m >= 82 && ThermalOk(sh) && (online > 0 ==> sh.otgActive == 0)
    ensures After(m, PollCounted(status, online), sh, ThermalOk)
  {
    hide PollThermal;
    var s1 := sh.WithField(PollCount, (sh.pollCount + 1) % 0x1_0000_0000);
    forall q: nat | q >= 76 ensures After(q, PollThermal(status, online), s1, ThermalOk) {
      PollThermalKeeps(q, status, online, s1);
    }
    GetCapacityAfter(76, m - 2, _ => PollThermal(status, online), s1, ThermalOk);
    PollThermalKeeps(m - 2, status, online, s1);
    assert After(m - 1, PollCounted(status, online).onGet(sh.pollCount), sh, ThermalOk);
  }

  lemma {:induction false} PollTypedKeeps(m: nat, status: int, online: int, sh: Shared)
    requires m >= 86 && ThermalOk(sh) && (online > 0 ==> sh.otgActive == 0)
    ensures After(m, PollTyped(status, online), sh, ThermalOk)
  {
    forall q: nat | q >= 82 ensures After(q, PollCounted(status, online), sh, ThermalOk) {
      PollCountedKeeps(q, status, online, sh);
    }
    GetUsbTypeAfter(82, m, _ => PollCounted(status, online), sh, ThermalOk);
  }

  lemma {:induction false} PollWorkKeeps(m: nat, sh: Shared)
    requires m >= 92 && ThermalOk(sh)
    ensures After(m, PollWork(), sh, ThermalOk)
  {
    forall status, q: nat | q >= 88 ensures After(q, PollStatused(status), sh, ThermalOk) {
      forall online, c: nat | c >= 86 && (online > 0 ==> sh.otgActive == 0)
        ensures After(c, PollTyped(status, online), sh, ThermalOk)
      {
        PollTypedKeeps(c, status, online, sh);
      }
      GetOnlineAfter(86, q, online => PollTyped(status, online), sh, ThermalOk);
    }
    GetStatusAfter(88, m, status => PollStatused(status), sh, ThermalOk);
  }

  lemma {:induction false} ReadPropertyKeeps(m: nat, which: nat, sh: Shared)
    requires m >= 5 && ThermalOk(sh)
    ensures After(m, ReadProperty(which), sh, ThermalOk)
  {
    hide GetStatus, GetCapacity, GetTemp, GetOnline, GetUsbType;
    GetStatusAfter(0, m, v => Done(v), sh, ThermalOk);
    GetCapacityAfter(0, m, v => Done(v), sh, ThermalOk);
    GetTempAfter(0, m, (v: Option<int>) => Done(if v.None? then EIO else v.value), sh, ThermalOk);
    GetOnlineAfter(0, m, v => Done(v), sh, ThermalOk);
    GetUsbTypeAfter(0, m, v => Done(v), sh, ThermalOk);
  }

  lemma {:induction false} BodyKeeps(r: Routine, sh: Shared)
    requires ThermalOk(sh)
    ensures After(92, Body(r), sh, ThermalOk)
  {
    match r
    case RSetPdContract(mv, ma) => SetPdContractKeeps(92, mv, ma, sh);
    case RSetDirectCharge(active) => SetDirectChargeKeeps(92, active, sh);
    case RSetOtg(on, otgMa) => SetOtgKeeps(92, on, otgMa, sh);
    case RIsOtgActive => FlagQueriesKeep(92, sh);
    case RFastChargeEnabled => FlagQueriesKeep(92, sh);
    case RFastChargeStore(enabled) => FastChargeStoreKeeps(92, enabled, sh);
    case RPollWork => PollWorkKeeps(92, sh);
    case RReadProperty(which) => ReadPropertyKeeps(92, which, sh);
  }

  /** Over every sequence of calls. */

  // The state after the calls, oldest first; None if a call needed over 92 accesses.
  function RunCalls(calls: seq<Routine>, sh: Shared, o: nat -> int, i: nat): Option<Shared> {
    if calls == [] then Some(sh)
    else match Exec(92, Body(calls[0]), sh, o, i)
      case None => None
      case Some(next) => RunCalls(calls[1..], next.0, o, next.1)
  }

  // STOP leaves Q4 open and REDUCED with Q4 closed keeps the charge current at or
  // under 2.1 A, after any calls in any order with any readings.
  lemma {:induction false} ThermalStateGovernsQ4(calls: seq<Routine>, sh: Shared, o: nat -> int, i: nat)
    requires ThermalOf(sh.thermalState) == Normal || ThermalOk(sh)
    ensures RunCalls(calls, sh, o, i).Some?
    ensures var s := RunCalls(calls, sh, o, i).value;
            && (ThermalOf(s.thermalState) == Stop ==> !s.Q4Closed())
            && (ThermalOf(s.thermalState) == Reduced && s.Q4Closed() ==> FastCurrentUa(s.chgCntl2 as int) <= 2_100_000)
    decreases |calls|
  {
    if calls != [] {
      BodyKeeps(calls[0], sh);
      ExecAfter(92, Body(calls[0]), sh, ThermalOk, o, i);
      var next := Exec(92, Body(calls[0]), sh, o, i).value;
      ThermalStateGovernsQ4(calls[1..], next.0, o, next.1);
    }
  }
}
