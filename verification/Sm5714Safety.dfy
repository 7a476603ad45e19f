/** Every routine of the battery driver is Safe. */
module Sm5714Safety {
  import opened Wrappers
  import opened Sm5714Codes
  import opened Sm5714Machine
  import opened Sm5714Battery

  // The continuation is safe with any budget from n on, now and later.
  ghost predicate Ready<T(!new)>(n: nat, k: T -> Prog, h: Held, sh: Shared) {
    forall r: T, m: nat, s: Shared :: m >= n && Rely(h, sh, s) ==> Safe(m, k(r), h, s)
  }

  /** Readings. */

  lemma FgReadSramSafe(n: nat, m: nat, k: Option<int> -> Prog, h: Held, sh: Shared)
    requires m >= n + 4 && !h.sram && Ready(n, k, h, sh)
    ensures Safe(m, FgReadSram(k), h, sh)
  {
    forall s1 | Rely(h, sh, s1) ensures SafeStep(m, FgReadSram(k), h, s1) {
      var g := h.With(Sram, true);
      var sel := FgReadSram(k).next;
      forall s2 | Rely(g, s1, s2) ensures SafeStep(m - 1, sel, g, s2) {
        forall s3 | Rely(g, s2, s3) ensures SafeStep(m - 2, Unlock(Sram, k(None)), g, s3) {}
        forall v ensures Safe(m - 2, sel.onSense(Some(v)), g, s2) {
          var data := sel.onSense(Some(v));
          forall s3 | Rely(g, s2, s3) ensures SafeStep(m - 2, data, g, s3) {
            forall raw: Option<int> ensures Safe(m - 3, data.onSense(raw), g, s3) {
              forall s4 | Rely(g, s3, s4) ensures SafeStep(m - 3, data.onSense(raw), g, s4) {}
            }
          }
        }
      }
    }
  }

  lemma GetCapacitySafe(n: nat, m: nat, k: int -> Prog, h: Held, sh: Shared)
    requires m >= n + 4 && !h.sram && Ready(n, k, h, sh)
    ensures Safe(m, GetCapacity(k), h, sh)
  {
    FgReadSramSafe(n, m, (raw: Option<int>) =>
      if raw.None? then k(EIO)
      else k(if raw.value * 10 / 256 / 10 > 100 then 100 else raw.value * 10 / 256 / 10), h, sh);
  }

  lemma GaugeTempSafe(n: nat, m: nat, k: Option<int> -> Prog, h: Held, sh: Shared)
    requires m >= n + 4 && !h.sram && Ready(n, k, h, sh)
    ensures Safe(m, GaugeTemp(k), h, sh)
  {
    FgReadSramSafe(n, m, (raw: Option<int>) => k(if raw.None? then None else Some(FgTemp(raw.value))), h, sh);
  }

  lemma GetTempSafe(n: nat, m: nat, k: Option<int> -> Prog, h: Held, sh: Shared)
    requires m >= n + 5 && !h.sram && Ready(n, k, h, sh)
    ensures Safe(m, GetTemp(k), h, sh)
  {
    forall s1 | Rely(h, sh, s1) ensures SafeStep(m, GetTemp(k), h, s1) {
      GaugeTempSafe(n, m - 1, k, h, s1);
    }
  }

  lemma GetOnlineRawSafe(n: nat, m: nat, k: int -> Prog, h: Held, sh: Shared)
    requires m >= n + 1 && Ready(n, k, h, sh)
    ensures Safe(m, GetOnlineRaw(k), h, sh)
  {
  }

  lemma GetOnlineSafe(n: nat, m: nat, k: int -> Prog, h: Held, sh: Shared)
    requires m >= n + 2 && Ready(n, k, h, sh)
    ensures Safe(m, GetOnline(k), h, sh)
  {
    forall s1 | Rely(h, sh, s1) ensures SafeStep(m, GetOnline(k), h, s1) {
      GetOnlineRawSafe(n, m - 1, k, h, s1);
    }
  }

  lemma UsbTypeWhenSafe(n: nat, m: nat, online: int, k: int -> Prog, h: Held, sh: Shared)
    requires m >= n + 2 && Ready(n, k, h, sh) && Inv(sh)
    ensures Safe(m, UsbTypeWhen(online, k), h, sh)
  {
    if online > 0 {
      forall s1 | Rely(h, sh, s1) ensures SafeStep(m, UsbTypeWhen(online, k), h, s1) {
        forall s2 | Rely(h, s1, s2) && s1.typecMv <= 5000 ensures SafeStep(m - 1, UsbTypeAt(s1.typecMv, k), h, s2) {}
      }
    } else {
      assert Rely(h, sh, sh);
    }
  }

  lemma GetUsbTypeSafe(n: nat, m: nat, k: int -> Prog, h: Held, sh: Shared)
    requires m >= n + 4 && Ready(n, k, h, sh)
    ensures Safe(m, GetUsbType(k), h, sh)
  {
    forall r, q: nat, s | q >= n + 2 && Rely(h, sh, s) ensures Safe(q, UsbTypeWhen(r, k), h, s) {
      UsbTypeWhenSafe(n, q, r, k, h, s);
    }
    GetOnlineSafe(n + 2, m, online => UsbTypeWhen(online, k), h, sh);
  }

  lemma GetStatusSafe(n: nat, m: nat, k: int -> Prog, h: Held, sh: Shared)
    requires m >= n + 4 && Ready(n, k, h, sh)
    ensures Safe(m, GetStatus(k), h, sh)
  {
    forall s1 | Rely(h, sh, s1) ensures SafeStep(m, GetStatus(k), h, s1) {
      var st := GetStatus(k).onGet(0);
      forall s2 | Rely(h, s1, s2) ensures SafeStep(m - 1, st, h, s2) {
        forall v1 ensures Safe(m - 2, st.onSense(Some(v1)), h, s2) {
          var st2 := st.onSense(Some(v1));
          forall s3 | Rely(h, s2, s3) ensures SafeStep(m - 2, st2, h, s3) {
            forall v2 ensures Safe(m - 3, st2.onSense(Some(v2)), h, s3) {
              forall s4 | Rely(h, s3, s4) ensures SafeStep(m - 3, st2.onSense(Some(v2)), h, s4) {}
            }
          }
        }
      }
    }
  }

  /** Register updates. */

  // Every write of `val` under `mask` is allowed, and k is safe after it.
  ghost predicate ReadyAfter(n: nat, reg: Reg, mask: bv8, val: bv8, k: int -> Prog, h: Held, sh: Shared) {
    forall s: Shared, v: bv8 :: Rely(h, sh, s) && v & mask == val & mask ==>
      && Guarantee(h, s, s.WithReg(reg, v))
      && (forall m: nat :: m >= n ==> Safe(m, k(0), h, s.WithReg(reg, v)))
  }

  ghost predicate ReadyFail(n: nat, k: int -> Prog, h: Held, sh: Shared) {
    forall m: nat, s: Shared :: m >= n && Rely(h, sh, s) ==> Safe(m, k(EIO), h, s)
  }

  lemma UpdateBitsSafe(n: nat, m: nat, reg: Reg, mask: bv8, val: bv8, k: int -> Prog, h: Held, sh: Shared)
    requires m >= n + 2 && ReadyFail(n, k, h, sh) && ReadyAfter(n, reg, mask, val, k, h, sh)
    ensures Safe(m, UpdateBits(reg, mask, val, k), h, sh)
  {
    forall s1 | Rely(h, sh, s1) ensures SafeStep(m, UpdateBits(reg, mask, val, k), h, s1) {
      var was := s1.RegVal(reg);
      MergeMasked(was, mask, val);
      UpdateToSafe(n, m - 1, reg, mask, val, Merge(was, mask, val), k, h, sh, s1);
    }
  }

  lemma UpdateToSafe(n: nat, m: nat, reg: Reg, mask: bv8, val: bv8, v: bv8, k: int -> Prog, h: Held, sh: Shared,
        s1: Shared)
    requires m >= n + 1 && ReadyFail(n, k, h, sh) && ReadyAfter(n, reg, mask, val, k, h, sh)
    requires Rely(h, sh, s1) && v & mask == val & mask
    ensures Safe(m, UpdateTo(reg, s1.RegVal(reg), v, k), h, s1)
  {
    var p := UpdateTo(reg, s1.RegVal(reg), v, k);
    if s1.RegVal(reg) == v {
      SameReg(s1, reg);
    } else {
      forall s2 | Rely(h, s1, s2) ensures SafeStep(m, p, h, s2) {
        assert Rely(h, sh, s2);
        assert Guarantee(h, s2, s2.WithReg(reg, v));
      }
    }
  }

  /** configure_charging: entered without chg_lock, works with it. */

  // Inside the critical section: the boost is off and the flag agrees.
  predicate Quiet(h: Held, sh: Shared) {
    h.chg && !h.sram && Inv(sh) && LockInv(sh) && !sh.Boosting()
  }

  // What to do after chg_lock is dropped is safe.
  ghost predicate ReadyOut(n: nat, k: int -> Prog, h: Held, sh: Shared) {
    Ready(n, k, h.With(Chg, false), sh)
  }

  lemma ConfigureOutSafe(n: nat, m: nat, ret: int, k: int -> Prog, h: Held, sh: Shared)
    requires m >= n + 1 && h.chg && LockInv(sh) && ReadyOut(n, k, h, sh)
    ensures Safe(m, ConfigureOut(ret, k), h, sh)
  {
  }

  lemma RaiseInputSafe(n: nat, m: nat, ret: int, inputMa: nat, k: int -> Prog, h: Held, sh: Shared)
    requires m >= n + 2 && Quiet(h, sh) && ReadyOut(n, k, h, sh)
    ensures Safe(m, RaiseInput(ret, inputMa, k), h, sh)
  {
    if ret != 0 {
      ConfigureOutSafe(n, m, ret, k, h, sh);
    } else {
      forall s1 | Rely(h, sh, s1) ensures SafeStep(m, RaiseInput(ret, inputMa, k), h, s1) {
        ConfigureOutSafe(n, m - 1, EIO, k, h, s1);
        ConfigureOutSafe(n, m - 1, 0, k, h, s1.WithReg(VbusCntl, InputCurrentReg(inputMa) as bv8));
      }
    }
  }

  // Q4 may close here: the boost is off and the input limit holds 500 mA.
  lemma Q4Written(n: nat, inputMa: nat, v: bv8, k: int -> Prog, h: Held, s: Shared)
    requires Quiet(h, s) && ReadyOut(n, k, h, s) && s.vbusCntl == InputCurrentReg(500) as bv8
    ensures Guarantee(h, s, s.WithReg(Cntl1, v))
    ensures forall q: nat :: q >= n + 2 ==> Safe(q, RaiseInput(0, inputMa, k), h, s.WithReg(Cntl1, v))
  {
    hide RaiseInput;
    forall q: nat | q >= n + 2 ensures Safe(q, RaiseInput(0, inputMa, k), h, s.WithReg(Cntl1, v)) {
      RaiseInputSafe(n, q, 0, inputMa, k, h, s.WithReg(Cntl1, v));
    }
  }

  lemma CloseQ4Safe(n: nat, m: nat, ret: int, inputMa: nat, k: int -> Prog, h: Held, sh: Shared)
    requires m >= n + 4 && Quiet(h, sh) && ReadyOut(n, k, h, sh)
    requires sh.vbusCntl == InputCurrentReg(500) as bv8
    ensures Safe(m, CloseQ4(ret, inputMa, k), h, sh)
  {
    hide RaiseInput, UpdateBits, Guarantee;
    if ret != 0 {
      ConfigureOutSafe(n, m, ret, k, h, sh);
    } else {
      forall q: nat, s | q >= n + 2 && Rely(h, sh, s) ensures Safe(q, RaiseInput(EIO, inputMa, k), h, s) {
        RaiseInputSafe(n, q, EIO, inputMa, k, h, s);
      }
      forall s, v: bv8 | Rely(h, sh, s)
        ensures Guarantee(h, s, s.WithReg(Cntl1, v))
        ensures forall q: nat :: q >= n + 2 ==> Safe(q, RaiseInput(0, inputMa, k), h, s.WithReg(Cntl1, v))
      {
        Q4Written(n, inputMa, v, k, h, s);
      }
      UpdateBitsSafe(n + 2, m, Cntl1, 0x08, 0x08, r => RaiseInput(r, inputMa, k), h, sh);
    }
  }

  // Writing the float voltage touches nothing the others rely on.
  lemma FloatWritten(n: nat, inputMa: nat, v: bv8, k: int -> Prog, h: Held, s: Shared)
    requires Quiet(h, s) && ReadyOut(n, k, h, s) && s.vbusCntl == InputCurrentReg(500) as bv8
    ensures Guarantee(h, s, s.WithReg(ChgCntl4, v))
    ensures forall q: nat :: q >= n + 4 ==> Safe(q, CloseQ4(0, inputMa, k), h, s.WithReg(ChgCntl4, v))
  {
    hide CloseQ4;
    forall q: nat | q >= n + 4 ensures Safe(q, CloseQ4(0, inputMa, k), h, s.WithReg(ChgCntl4, v)) {
      CloseQ4Safe(n, q, 0, inputMa, k, h, s.WithReg(ChgCntl4, v));
    }
  }

  lemma FloatToSafe(n: nat, m: nat, uv: int, inputMa: nat, k: int -> Prog, h: Held, sh: Shared)
    requires m >= n + 6 && Quiet(h, sh) && ReadyOut(n, k, h, sh)
    requires sh.vbusCntl == InputCurrentReg(500) as bv8
    ensures Safe(m, FloatTo(uv, r => CloseQ4(r, inputMa, k)), h, sh)
  {
    hide CloseQ4, UpdateBits, BatRegOffset;
    if uv <= 0 {
      CloseQ4Safe(n, m, 0, inputMa, k, h, sh);
    } else {
      forall q: nat, s | q >= n + 4 && Rely(h, sh, s) ensures Safe(q, CloseQ4(EIO, inputMa, k), h, s) {
        CloseQ4Safe(n, q, EIO, inputMa, k, h, s);
      }
      forall s, v: bv8 | Rely(h, sh, s)
        ensures Guarantee(h, s, s.WithReg(ChgCntl4, v))
        ensures forall q: nat :: q >= n + 4 ==> Safe(q, CloseQ4(0, inputMa, k), h, s.WithReg(ChgCntl4, v))
      {
        FloatWritten(n, inputMa, v, k, h, s);
      }
      UpdateBitsSafe(n + 4, m, ChgCntl4, 0x3f, BatRegOffset(uv) as bv8, r => CloseQ4(r, inputMa, k), h, sh);
    }
  }

  lemma FloatSafe(n: nat, m: nat, inputMa: nat, k: int -> Prog, h: Held, sh: Shared)
    requires m >= n + 7 && Quiet(h, sh) && ReadyOut(n, k, h, sh)
    requires sh.vbusCntl == InputCurrentReg(500) as bv8
    ensures Safe(m, SetFloatVoltage(r => CloseQ4(r, inputMa, k)), h, sh)
  {
    hide CloseQ4, UpdateBits, FloatTo;
    var p := SetFloatVoltage(r => CloseQ4(r, inputMa, k));
    forall s1 | Rely(h, sh, s1) ensures SafeStep(m, p, h, s1) {
      FloatToSafe(n, m - 1, s1.floatUv, inputMa, k, h, s1);
    }
  }

  lemma ProgramPackSafe(n: nat, m: nat, inputMa: nat, packMa: nat, k: int -> Prog, h: Held, sh: Shared)
    requires m >= n + 8 && Quiet(h, sh) && ReadyOut(n, k, h, sh)
    requires sh.vbusCntl == InputCurrentReg(500) as bv8
    ensures Safe(m, ProgramPack(inputMa, packMa, k), h, sh)
  {
    hide CloseQ4, SetFloatVoltage;
    forall s1 | Rely(h, sh, s1) ensures SafeStep(m, ProgramPack(inputMa, packMa, k), h, s1) {
      ConfigureOutSafe(n, m - 1, EIO, k, h, s1);
      FloatSafe(n, m - 1, inputMa, k, h, s1.WithReg(ChgCntl2, FastCurrentReg(packMa) as bv8));
    }
  }

  lemma ProgramSafe(n: nat, m: nat, budget: (nat, nat), k: int -> Prog, h: Held, sh: Shared)
    requires m >= n + 9 && Quiet(h, sh) && ReadyOut(n, k, h, sh)
    ensures Safe(m, Program(budget, k), h, sh)
  {
    forall s1 | Rely(h, sh, s1) ensures SafeStep(m, Program(budget, k), h, s1) {
      ConfigureOutSafe(n, m - 1, EIO, k, h, s1);
      ProgramPackSafe(n, m - 1, budget.0, budget.1, k, h, s1.WithReg(VbusCntl, InputCurrentReg(500) as bv8));
    }
  }

  // Opening Q4 is allowed to anyone at any time.
  lemma OpeningIsAllowed(h: Held, s: Shared, v: bv8)
    requires Inv(s) && v & 0x08 == 0
    ensures Guarantee(h, s, s.WithReg(Cntl1, v))
  {
  }

  lemma ConfigureLimitsSafe(n: nat, m: nat, th: Thermal, mv: int, ma: int, usbType: int, k: int -> Prog, h: Held,
        sh: Shared)
    requires m >= n + 10 && Quiet(h, sh) && ReadyOut(n, k, h, sh)
    ensures Safe(m, ConfigureLimits(th, mv, ma, usbType, k), h, sh)
  {
    if th == Stop {
      StopSafe(n, m, k, h, sh);
    } else if Contract(mv, ma) {
      forall s1 | Rely(h, sh, s1) ensures SafeStep(m, ConfigureLimits(th, mv, ma, usbType, k), h, s1) {
        ProgramSafe(n, m - 1, Budgets(s1.fastCharge != 0, mv, ma, usbType, th), k, h, s1);
      }
    } else {
      ProgramSafe(n, m, Budgets(false, mv, ma, usbType, th), k, h, sh);
    }
  }

  lemma StopSafe(n: nat, m: nat, k: int -> Prog, h: Held, sh: Shared)
    requires m >= n + 10 && Quiet(h, sh) && ReadyOut(n, k, h, sh)
    ensures Safe(m, UpdateBits(Cntl1, 0x08, 0, r => ConfigureOut(r, k)), h, sh)
  {
    var out := r => ConfigureOut(r, k);
    forall q: nat, s | q >= n + 1 && Rely(h, sh, s) ensures Safe(q, out(EIO), h, s) {
      ConfigureOutSafe(n, q, EIO, k, h, s);
    }
    forall s, v: bv8 | Rely(h, sh, s) && v & 0x08 == 0 & 0x08
      ensures Guarantee(h, s, s.WithReg(Cntl1, v))
      ensures forall q: nat :: q >= n + 1 ==> Safe(q, out(0), h, s.WithReg(Cntl1, v))
    {
      OpeningIsAllowed(h, s, v);
      forall q: nat | q >= n + 1 ensures Safe(q, out(0), h, s.WithReg(Cntl1, v)) {
        ConfigureOutSafe(n, q, 0, k, h, s.WithReg(Cntl1, v));
      }
    }
    UpdateBitsSafe(n + 1, m, Cntl1, 0x08, 0, out, h, sh);
  }

  lemma ConfigureThermalSafe(n: nat, m: nat, th: Thermal, temp: Option<int>, mv: int, ma: int, usbType: int,
        k: int -> Prog, h: Held, sh: Shared)
    requires m >= n + 12 && Quiet(h, sh) && ReadyOut(n, k, h, sh)
    ensures Safe(m, ConfigureThermal(th, temp, mv, ma, usbType, k), h, sh)
  {
    hide ConfigureLimits;
    if temp.None? {
      ConfigureLimitsSafe(n, m, th, mv, ma, usbType, k, h, sh);
    } else {
      forall s1 | Rely(h, sh, s1) ensures SafeStep(m, ConfigureThermal(th, temp, mv, ma, usbType, k), h, s1) {
        var hot := NextThermal(ThermalOf(s1.thermalState), temp.value);
        forall s2 | Rely(h, s1, s2) ensures SafeStep(m - 1, ConfigureHotter(hot, mv, ma, usbType, k), h, s2) {
          ConfigureLimitsSafe(n, m - 2, hot, mv, ma, usbType, k, h, s2.WithField(ThermalState, Severity(hot)));
        }
      }
    }
  }

  lemma ConfigureForSafe(n: nat, m: nat, mv: int, ma: int, usbType: int, k: int -> Prog, h: Held, sh: Shared)
    requires m >= n + 18 && Quiet(h, sh) && ReadyOut(n, k, h, sh)
    ensures Safe(m, ConfigureFor(mv, ma, usbType, k), h, sh)
  {
    if usbType < 0 {
      ConfigureOutSafe(n, m, usbType, k, h, sh);
    } else {
      forall s1 | Rely(h, sh, s1) ensures SafeStep(m, ConfigureFor(mv, ma, usbType, k), h, s1) {
        var th := ThermalOf(s1.thermalState);
        forall temp: Option<int>, q: nat, s | q >= n + 12 && Rely(h, s1, s)
          ensures Safe(q, ConfigureThermal(th, temp, mv, ma, usbType, k), h, s)
        {
          ConfigureThermalSafe(n, q, th, temp, mv, ma, usbType, k, h, s);
        }
        GetTempSafe(n + 12, m - 1, (temp: Option<int>) => ConfigureThermal(th, temp, mv, ma, usbType, k), h, s1);
      }
    }
  }

  lemma ConfigureTypedSafe(n: nat, m: nat, mv: int, ma: int, k: int -> Prog, h: Held, sh: Shared)
    requires m >= n + 22 && Quiet(h, sh) && ReadyOut(n, k, h, sh)
    ensures Safe(m, GetUsbType(usbType => ConfigureFor(mv, ma, usbType, k)), h, sh)
  {
    forall usbType, q: nat, s | q >= n + 18 && Rely(h, sh, s) ensures Safe(q, ConfigureFor(mv, ma, usbType, k), h, s) {
      ConfigureForSafe(n, q, mv, ma, usbType, k, h, s);
    }
    GetUsbTypeSafe(n + 18, m, usbType => ConfigureFor(mv, ma, usbType, k), h, sh);
  }

  lemma ConfigureChargingSafe(n: nat, m: nat, k: int -> Prog, h: Held, sh: Shared)
    requires m >= n + 26 && !h.chg && !h.sram && Ready(n, k, h, sh)
    ensures Safe(m, ConfigureCharging(k), h, sh)
  {
    var g := h.With(Chg, true);
    forall s1 | Rely(h, sh, s1) && LockInv(s1) ensures Safe(m - 1, ConfigureCharging(k).next, g, s1) {
      assert g.With(Chg, false) == h;
      forall s2 | Rely(g, s1, s2) ensures SafeStep(m - 1, ConfigureCharging(k).next, g, s2) {
        if s2.otgActive != 0 {
          ConfigureOutSafe(n, m - 2, EBUSY, k, g, s2);
        } else {
          ConfigureQuietSafe(n, m - 2, k, g, s2);
        }
      }
    }
  }

  lemma ConfigureQuietSafe(n: nat, m: nat, k: int -> Prog, h: Held, sh: Shared)
    requires m >= n + 24 && Quiet(h, sh) && ReadyOut(n, k, h, sh)
    ensures Safe(m, ConfigureCharging(k).next.onGet(0), h, sh)
  {
    var p := ConfigureCharging(k).next.onGet(0);
    forall s1 | Rely(h, sh, s1) ensures SafeStep(m, p, h, s1) {
      var p1 := p.onGet(s1.typecMv);
      forall s2 | Rely(h, s1, s2) ensures SafeStep(m - 1, p1, h, s2) {
        ConfigureTypedSafe(n, m - 2, s1.typecMv, s2.typecMa, k, h, s2);
      }
    }
  }

  /** The entry points under global_lock. */

  const G := Held(true, false, false)
  const GC := Held(true, true, false)

  lemma ReleaseSafe(m: nat, ret: int, sh: Shared)
    requires m >= 1
    ensures Safe(m, Unlock(Global, Done(ret)), G, sh)
  {
  }

  lemma ReleaseIsReady(sh: Shared)
    ensures Ready(1, ret => Unlock(Global, Done(ret)), G, sh)
  {
    forall ret, m: nat, s | m >= 1 && Rely(G, sh, s) ensures Safe(m, Unlock(Global, Done(ret)), G, s) {
      ReleaseSafe(m, ret, s);
    }
  }

  lemma ReleaseBothSafe(m: nat, ret: int, sh: Shared)
    requires m >= 2 && LockInv(sh)
    ensures Safe(m, Unlock(Chg, Unlock(Global, Done(ret))), GC, sh)
  {
    forall s1 | Rely(GC, sh, s1) ensures SafeStep(m, Unlock(Chg, Unlock(Global, Done(ret))), GC, s1) {
      ReleaseSafe(m - 1, ret, s1);
    }
  }

  lemma ConfigureThenReleaseSafe(m: nat, sh: Shared)
    requires m >= 27
    ensures Safe(m, ConfigureCharging(r => Unlock(Global, Done(r))), G, sh)
  {
    ReleaseIsReady(sh);
    ConfigureChargingSafe(1, m, r => Unlock(Global, Done(r)), G, sh);
  }

  lemma ConfigureThenDoneSafe(m: nat, sh: Shared)
    requires m >= 26
    ensures Safe(m, ConfigureCharging(r => Done(r)), NO_LOCK, sh)
  {
    ConfigureChargingSafe(0, m, r => Done(r), NO_LOCK, sh);
  }

  // set_pd_contract

  lemma PdDirectSafe(m: nat, direct: int, sh: Shared)
    requires m >= 27
    ensures Safe(m, if direct != 0 then Unlock(Global, Done(0)) else ConfigureCharging(r => Unlock(Global, Done(r))),
                 G, sh)
  {
    ReleaseSafe(m, 0, sh);
    ConfigureThenReleaseSafe(m, sh);
  }

  lemma PdOnlineSafe(m: nat, sh: Shared)
    requires m >= 30
    ensures Safe(m, PdOnline(), G, sh)
  {
    forall online, q: nat, s | q >= 28 && Rely(G, sh, s) ensures Safe(q, PdWhen(online), G, s) {
      ReleaseSafe(q, 0, s);
      forall s1 | Rely(G, s, s1) && online > 0 ensures SafeStep(q, PdWhen(online), G, s1) {
        PdDirectSafe(q - 1, s1.directCharging, s1);
      }
    }
    GetOnlineSafe(28, m, online => PdWhen(online), G, sh);
  }

  lemma SetPdContractSafe(m: nat, mv: nat, ma: nat, sh: Shared)
    requires m >= 34
    ensures Safe(m, SetPdContract(mv, ma), NO_LOCK, sh)
  {
    var p := SetPdContract(mv, ma);
    if p.Lock? {
      forall s1 | Rely(NO_LOCK, sh, s1) ensures SafeStep(m, p, NO_LOCK, s1) {
        forall s2 | Rely(G, s1, s2) ensures SafeStep(m - 1, p.next, G, s2) {
          ReleaseSafe(m - 2, EPROBE_DEFER, s2);
          forall s3 | Rely(G, s2, s3) ensures SafeStep(m - 2, PdStore(mv, ma), G, s3) {
            var s3' := s3.WithField(TypecMv, mv);
            forall s4 | Rely(G, s3', s4) ensures SafeStep(m - 3, PdStore(mv, ma).next, G, s4) {
              var s4' := s4.WithField(TypecMa, ma);
              ReleaseSafe(m - 4, 0, s4');
              PdOnlineSafe(m - 4, s4');
            }
          }
        }
      }
    }
  }

  // set_direct_charge

  lemma DirectOpenSafe(m: nat, sh: Shared)
    requires m >= 6
    ensures Safe(m, DirectOpen(), G, sh)
  {
    forall s1 | Rely(G, sh, s1) && LockInv(s1) ensures Safe(m - 1, DirectOpen().next, GC, s1) {
      forall q: nat, s | q >= 3 && Rely(GC, s1, s) ensures Safe(q, DirectOpened(EIO), GC, s) {
        DirectOpenedSafe(q, EIO, s);
      }
      forall s, v: bv8 | Rely(GC, s1, s) && v & 0x08 == 0 & 0x08
        ensures Guarantee(GC, s, s.WithReg(Cntl1, v))
        ensures forall q: nat :: q >= 3 ==> Safe(q, DirectOpened(0), GC, s.WithReg(Cntl1, v))
      {
        OpeningIsAllowed(GC, s, v);
        forall q: nat | q >= 3 ensures Safe(q, DirectOpened(0), GC, s.WithReg(Cntl1, v)) {
          DirectOpenedSafe(q, 0, s.WithReg(Cntl1, v));
        }
      }
      UpdateBitsSafe(3, m - 1, Cntl1, 0x08, 0, r => DirectOpened(r), GC, s1);
    }
  }

  lemma DirectOpenedSafe(m: nat, ret: int, sh: Shared)
    requires m >= 3 && LockInv(sh)
    ensures Safe(m, DirectOpened(ret), GC, sh)
  {
    forall s1 | Rely(GC, sh, s1) ensures SafeStep(m, DirectOpened(ret), GC, s1) {
      ReleaseSafe(m - 1, 0, s1);
      forall s2 | Rely(G, s1, s2) && ret != 0 ensures SafeStep(m - 1, DirectOpened(ret).next, G, s2) {
        ReleaseSafe(m - 2, ret, s2.WithField(DirectCharging, 0));
      }
    }
  }

  lemma DirectWarmSafe(m: nat, temp: Option<int>, sh: Shared)
    requires m >= 7
    ensures Safe(m, DirectWarm(temp), G, sh)
  {
    ReleaseSafe(m, EIO, sh);
    ReleaseSafe(m, ERANGE, sh);
    if DirectWarm(temp).Set? {
      forall s1 | Rely(G, sh, s1) ensures SafeStep(m, DirectWarm(temp), G, s1) {
        DirectOpenSafe(m - 1, s1.WithField(DirectCharging, 1));
      }
    }
  }

  lemma DirectOnSafe(m: nat, sh: Shared)
    requires m >= 12
    ensures Safe(m, DirectOn(), G, sh)
  {
    forall temp: Option<int>, q: nat, s | q >= 7 && Rely(G, sh, s) ensures Safe(q, DirectWarm(temp), G, s) {
      DirectWarmSafe(q, temp, s);
    }
    GetTempSafe(7, m, (temp: Option<int>) => DirectWarm(temp), G, sh);
  }

  lemma DirectOffSafe(m: nat, sh: Shared)
    requires m >= 30
    ensures Safe(m, DirectOff(), G, sh)
  {
    forall s1 | Rely(G, sh, s1) ensures SafeStep(m, DirectOff(), G, s1) {
      var s1' := s1.WithField(DirectCharging, 0);
      forall online, q: nat, s | q >= 27 && Rely(G, s1', s) ensures Safe(q, DirectBack(online), G, s) {
        ReleaseSafe(q, 0, s);
        ConfigureThenReleaseSafe(q, s);
      }
      GetOnlineSafe(27, m - 1, online => DirectBack(online), G, s1');
    }
  }

  lemma SetDirectChargeSafe(m: nat, active: bool, sh: Shared)
    requires m >= 32
    ensures Safe(m, SetDirectCharge(active), NO_LOCK, sh)
  {
    hide DirectOn, DirectOff;
    var p := SetDirectCharge(active);
    forall s1 | Rely(NO_LOCK, sh, s1) ensures SafeStep(m, p, NO_LOCK, s1) {
      forall s2 | Rely(G, s1, s2) ensures SafeStep(m - 1, p.next, G, s2) {
        ReleaseSafe(m - 2, EPROBE_DEFER, s2);
        DirectOnSafe(m - 2, s2);
        DirectOffSafe(m - 2, s2);
      }
    }
  }

  // The D-/D+ switch, with chg_lock held and the boost off.

  ghost predicate ReadyQuiet(n: nat, k: int -> Prog, h: Held) {
    forall r, m: nat, s: Shared :: m >= n && Quiet(h, s) ==> Safe(m, k(r), h, s)
  }

  lemma MuicOffToSafe(n: nat, m: nat, v: bv8, k: int -> Prog, h: Held, sh: Shared)
    requires m >= n + 1 && Quiet(h, sh) && ReadyQuiet(n, k, h)
    ensures Safe(m, MuicOffTo(v, k), h, sh)
  {
  }

  lemma MuicOffBc12Safe(n: nat, m: nat, k: int -> Prog, h: Held, sh: Shared)
    requires m >= n + 2 && Quiet(h, sh) && ReadyQuiet(n, k, h)
    ensures Safe(m, MuicOffBc12(k), h, sh)
  {
    forall s1 | Rely(h, sh, s1) ensures SafeStep(m, MuicOffBc12(k), h, s1) {
      assert Quiet(h, s1);
      MuicOffToSafe(n, m - 1, s1.muicCntl & !0x02, k, h, s1);
    }
  }

  lemma MuicOffSwitchSafe(n: nat, m: nat, v: bv8, k: int -> Prog, h: Held, sh: Shared)
    requires m >= n + 3 && Quiet(h, sh) && ReadyQuiet(n, k, h)
    ensures Safe(m, MuicOffSwitch(v, k), h, sh)
  {
    forall s1 | Rely(h, sh, s1) ensures SafeStep(m, MuicOffSwitch(v, k), h, s1) {
      assert Quiet(h, s1);
      MuicOffBc12Safe(n, m - 1, k, h, s1.WithReg(MuicSw, v));
    }
  }

  lemma MuicOffSafe(n: nat, m: nat, k: int -> Prog, h: Held, sh: Shared)
    requires m >= n + 4 && Quiet(h, sh) && ReadyQuiet(n, k, h)
    ensures Safe(m, MuicOff(k), h, sh)
  {
    forall s1 | Rely(h, sh, s1) ensures SafeStep(m, MuicOff(k), h, s1) {
      assert Quiet(h, s1);
      MuicOffSwitchSafe(n, m - 1, s1.muicSw & !0xbf, k, h, s1);
    }
  }

  lemma OtgUndoSafe(m: nat, ret: int, sh: Shared)
    requires m >= 6 && Quiet(GC, sh)
    ensures Safe(m, OtgUndo(ret), GC, sh)
  {
    forall q: nat, s | q >= 2 && Quiet(GC, s) ensures Safe(q, Unlock(Chg, Unlock(Global, Done(ret))), GC, s) {
      ReleaseBothSafe(q, ret, s);
    }
    MuicOffSafe(2, m, _ => Unlock(Chg, Unlock(Global, Done(ret))), GC, sh);
  }

  // set_otg(true): path, Q4, boost setting, boost.

  lemma OtgBoostSafe(m: nat, sh: Shared)
    requires m >= 8 && Quiet(GC, sh) && sh.OtgPath() && !sh.Q4Closed()
    ensures Safe(m, OtgBoost(), GC, sh)
  {
    forall q: nat, s | q >= 6 && Rely(GC, sh, s) ensures Safe(q, OtgBoosted(EIO), GC, s) {
      OtgUndoSafe(q, EIO, s);
    }
    forall s, v: bv8 | Rely(GC, sh, s) && v & 0x0f == 0x07 & 0x0f
      ensures Guarantee(GC, s, s.WithReg(Cntl2, v))
      ensures forall q: nat :: q >= 6 ==> Safe(q, OtgBoosted(0), GC, s.WithReg(Cntl2, v))
    {
      forall q: nat | q >= 6 ensures Safe(q, OtgBoosted(0), GC, s.WithReg(Cntl2, v)) {
        var s' := s.WithReg(Cntl2, v);
        forall s1 | Rely(GC, s', s1) ensures SafeStep(q, OtgBoosted(0), GC, s1) {
          ReleaseBothSafe(q - 1, 0, s1.WithField(OtgActive, 1));
        }
      }
    }
    UpdateBitsSafe(6, m, Cntl2, 0x0f, 0x07, r => OtgBoosted(r), GC, sh);
  }

  lemma OtgSettingSafe(m: nat, ret: int, otgMa: bv8, sh: Shared)
    requires m >= 10 && Quiet(GC, sh) && sh.OtgPath() && (ret == 0 ==> !sh.Q4Closed())
    ensures Safe(m, OtgSetting(ret, otgMa), GC, sh)
  {
    if ret != 0 {
      OtgUndoSafe(m, ret, sh);
    } else {
      forall q: nat, s | q >= 8 && Rely(GC, sh, s) ensures Safe(q, OtgPower(EIO), GC, s) {
        OtgUndoSafe(q, EIO, s);
      }
      forall s, v: bv8 | Rely(GC, sh, s)
        ensures Guarantee(GC, s, s.WithReg(BstCntl1, v))
        ensures forall q: nat :: q >= 8 ==> Safe(q, OtgPower(0), GC, s.WithReg(BstCntl1, v))
      {
        forall q: nat | q >= 8 ensures Safe(q, OtgPower(0), GC, s.WithReg(BstCntl1, v)) {
          OtgBoostSafe(q, s.WithReg(BstCntl1, v));
        }
      }
      UpdateBitsSafe(8, m, BstCntl1, 0xcf, BoostSetting(otgMa), r => OtgPower(r), GC, sh);
    }
  }

  lemma OtgOpenQ4Safe(m: nat, ret: int, otgMa: bv8, sh: Shared)
    requires m >= 12 && Quiet(GC, sh) && (ret == 0 ==> sh.OtgPath())
    ensures Safe(m, OtgOpenQ4(ret, otgMa), GC, sh)
  {
    if ret != 0 {
      OtgUndoSafe(m, ret, sh);
    } else {
      forall q: nat, s | q >= 10 && Rely(GC, sh, s) ensures Safe(q, OtgSetting(EIO, otgMa), GC, s) {
        OtgSettingSafe(q, EIO, otgMa, s);
      }
      forall s, v: bv8 | Rely(GC, sh, s) && v & 0x08 == 0 & 0x08
        ensures Guarantee(GC, s, s.WithReg(Cntl1, v))
        ensures forall q: nat :: q >= 10 ==> Safe(q, OtgSetting(0, otgMa), GC, s.WithReg(Cntl1, v))
      {
        OpeningIsAllowed(GC, s, v);
        forall q: nat | q >= 10 ensures Safe(q, OtgSetting(0, otgMa), GC, s.WithReg(Cntl1, v)) {
          OtgSettingSafe(q, 0, otgMa, s.WithReg(Cntl1, v));
        }
      }
      UpdateBitsSafe(10, m, Cntl1, 0x08, 0, r => OtgSetting(r, otgMa), GC, sh);
    }
  }

  lemma MuicRestoreSafe(m: nat, oldCntl: bv8, otgMa: bv8, sh: Shared)
    requires m >= 13 && Quiet(GC, sh)
    ensures Safe(m, MuicRestore(oldCntl, r => OtgOpenQ4(r, otgMa)), GC, sh)
  {
    forall s1 | Rely(GC, sh, s1) ensures SafeStep(m, MuicRestore(oldCntl, r => OtgOpenQ4(r, otgMa)), GC, s1) {
      OtgOpenQ4Safe(m - 1, EIO, otgMa, s1);
      OtgOpenQ4Safe(m - 1, EIO, otgMa, s1.WithReg(MuicCntl, oldCntl));
    }
  }

  lemma ManualUsb(sw: bv8)
    ensures ((sw & !0xbf) | 0x80 | 0x09) & 0xbf == 0x89
  {
  }

  lemma MuicOnSwitchSafe(m: nat, oldCntl: bv8, v: bv8, otgMa: bv8, sh: Shared)
    requires m >= 14 && Quiet(GC, sh) && sh.muicCntl & 0x02 != 0 && v & 0xbf == 0x89
    ensures Safe(m, MuicOnSwitch(oldCntl, v, r => OtgOpenQ4(r, otgMa)), GC, sh)
  {
    var p := MuicOnSwitch(oldCntl, v, r => OtgOpenQ4(r, otgMa));
    forall s1 | Rely(GC, sh, s1) ensures SafeStep(m, p, GC, s1) {
      MuicRestoreSafe(m - 1, oldCntl, otgMa, s1);
      OtgOpenQ4Safe(m - 1, 0, otgMa, s1.WithReg(MuicSw, v));
    }
  }

  lemma MuicOnPathSafe(m: nat, oldCntl: bv8, otgMa: bv8, sh: Shared)
    requires m >= 15 && Quiet(GC, sh) && sh.muicCntl & 0x02 != 0
    ensures Safe(m, MuicOnPath(oldCntl, r => OtgOpenQ4(r, otgMa)), GC, sh)
  {
    var p := MuicOnPath(oldCntl, r => OtgOpenQ4(r, otgMa));
    forall s1 | Rely(GC, sh, s1) ensures SafeStep(m, p, GC, s1) {
      MuicRestoreSafe(m - 1, oldCntl, otgMa, s1);
      ManualUsb(s1.muicSw);
      MuicOnSwitchSafe(m - 1, oldCntl, (s1.muicSw & !0xbf) | 0x80 | 0x09, otgMa, s1);
    }
  }

  lemma MuicOnBc12Safe(m: nat, oldCntl: bv8, v: bv8, otgMa: bv8, sh: Shared)
    requires m >= 16 && Quiet(GC, sh) && v & 0x02 != 0
    ensures Safe(m, MuicOnBc12(oldCntl, v, r => OtgOpenQ4(r, otgMa)), GC, sh)
  {
    var p := MuicOnBc12(oldCntl, v, r => OtgOpenQ4(r, otgMa));
    forall s1 | Rely(GC, sh, s1) ensures SafeStep(m, p, GC, s1) {
      OtgOpenQ4Safe(m - 1, EIO, otgMa, s1);
      MuicOnPathSafe(m - 1, oldCntl, otgMa, s1.WithReg(MuicCntl, v));
    }
  }

  lemma Bc12Off(c: bv8)
    ensures (c | 0x02) & 0x02 != 0
  {
  }

  lemma MuicOnSafe(m: nat, otgMa: bv8, sh: Shared)
    requires m >= 17 && Quiet(GC, sh)
    ensures Safe(m, MuicOn(r => OtgOpenQ4(r, otgMa)), GC, sh)
  {
    var p := MuicOn(r => OtgOpenQ4(r, otgMa));
    forall s1 | Rely(GC, sh, s1) ensures SafeStep(m, p, GC, s1) {
      OtgOpenQ4Safe(m - 1, EIO, otgMa, s1);
      Bc12Off(s1.muicCntl);
      MuicOnBc12Safe(m - 1, s1.muicCntl, s1.muicCntl | 0x02, otgMa, s1);
    }
  }

  lemma OtgOfflineSafe(m: nat, online: int, otgMa: bv8, sh: Shared)
    requires m >= 18 && sh.otgActive == 0
    ensures Safe(m, OtgOffline(online, otgMa), G, sh)
  {
    ReleaseSafe(m, online, sh);
    ReleaseSafe(m, EBUSY, sh);
    if online == 0 {
      forall s1 | Rely(G, sh, s1) ensures SafeStep(m, OtgOffline(online, otgMa), G, s1) {
        if LockInv(s1) {
          MuicOnSafe(m - 1, otgMa, s1);
        }
      }
    }
  }

  lemma OtgOnSafe(m: nat, otgMa: bv8, sh: Shared)
    requires m >= 20 && sh.otgActive == 0
    ensures Safe(m, OtgOn(otgMa), G, sh)
  {
    forall s1 | Rely(G, sh, s1) ensures SafeStep(m, OtgOn(otgMa), G, s1) {
      ReleaseSafe(m - 1, EBUSY, s1);
      forall online, q: nat, s | q >= 18 && Rely(G, s1, s) ensures Safe(q, OtgOffline(online, otgMa), G, s) {
        OtgOfflineSafe(q, online, otgMa, s);
      }
      GetOnlineRawSafe(18, m - 1, online => OtgOffline(online, otgMa), G, s1);
    }
  }

  // set_otg(false): boost off, path back, then the switching charger.

  lemma OtgOffTailSafe(m: nat, ret: int, sh: Shared)
    requires m >= 28
    ensures Safe(m, OtgOffTail(ret), G, sh)
  {
    ReleaseSafe(m, ret, sh);
    if ret == 0 {
      forall online, q: nat, s | q >= 27 && Rely(G, sh, s) ensures Safe(q, OtgOffCharge(online), G, s) {
        forall s1 | Rely(G, s, s1) ensures SafeStep(q, OtgOffCharge(online), G, s1) {
          ConfigureThenDoneSafe(q - 1, s1);
        }
      }
      GetOnlineRawSafe(27, m, online => OtgOffCharge(online), G, sh);
    }
  }

  lemma OtgPathOffSafe(m: nat, sh: Shared)
    requires m >= 33 && Quiet(GC, sh)
    ensures Safe(m, MuicOff(r => Unlock(Chg, OtgOffTail(r))), GC, sh)
  {
    forall r, q: nat, s | q >= 29 && Quiet(GC, s) ensures Safe(q, Unlock(Chg, OtgOffTail(r)), GC, s) {
      forall s1 | Rely(GC, s, s1) ensures SafeStep(q, Unlock(Chg, OtgOffTail(r)), GC, s1) {
        OtgOffTailSafe(q - 1, r, s1);
      }
    }
    MuicOffSafe(29, m, r => Unlock(Chg, OtgOffTail(r)), GC, sh);
  }

  lemma OtgOffSafe(m: nat, sh: Shared)
    requires m >= 37
    ensures Safe(m, OtgOff(), G, sh)
  {
    forall s1 | Rely(G, sh, s1) && LockInv(s1) ensures Safe(m - 1, OtgOff().next, GC, s1) {
      forall q: nat, s | q >= 34 && Rely(GC, s1, s) ensures Safe(q, OtgUnboosted(EIO), GC, s) {
        ReleaseBothSafe(q, EIO, s);
      }
      forall s, v: bv8 | Rely(GC, s1, s) && v & 0x0f == 0x05 & 0x0f
        ensures Guarantee(GC, s, s.WithReg(Cntl2, v))
        ensures forall q: nat :: q >= 34 ==> Safe(q, OtgUnboosted(0), GC, s.WithReg(Cntl2, v))
      {
        forall q: nat | q >= 34 ensures Safe(q, OtgUnboosted(0), GC, s.WithReg(Cntl2, v)) {
          var s' := s.WithReg(Cntl2, v);
          forall s2 | Rely(GC, s', s2) ensures SafeStep(q, OtgUnboosted(0), GC, s2) {
            OtgPathOffSafe(q - 1, s2.WithField(OtgActive, 0));
          }
        }
      }
      UpdateBitsSafe(34, m - 1, Cntl2, 0x0f, 0x05, r => OtgUnboosted(r), GC, s1);
    }
  }

  lemma SetOtgSafe(m: nat, active: bool, otgMa: bv8, sh: Shared)
    requires m >= 40
    ensures Safe(m, SetOtg(active, otgMa), NO_LOCK, sh)
  {
    var p := SetOtg(active, otgMa);
    forall s1 | Rely(NO_LOCK, sh, s1) ensures SafeStep(m, p, NO_LOCK, s1) {
      forall s2 | Rely(G, s1, s2) ensures SafeStep(m - 1, p.next, G, s2) {
        ReleaseSafe(m - 2, EPROBE_DEFER, s2);
        forall s3 | Rely(G, s2, s3) ensures SafeStep(m - 2, OtgWhen(active, otgMa), G, s3) {
          ReleaseSafe(m - 3, 0, s3);
          if s3.otgActive == 0 { OtgOnSafe(m - 3, otgMa, s3); }
          OtgOffSafe(m - 3, s3);
        }
      }
    }
  }

  // The two flag queries.

  lemma IsOtgActiveSafe(m: nat, sh: Shared)
    requires m >= 4
    ensures Safe(m, IsOtgActive(), NO_LOCK, sh)
  {
    var p := IsOtgActive();
    forall s1 | Rely(NO_LOCK, sh, s1) ensures SafeStep(m, p, NO_LOCK, s1) {
      forall s2 | Rely(G, s1, s2) ensures SafeStep(m - 1, p.next, G, s2) {
        ReleaseSafe(m - 2, 0, s2);
        forall v, s3 | Rely(G, s2, s3) ensures SafeStep(m - 2, p.next.onSense(Some(v)), G, s3) {
          ReleaseSafe(m - 3, s3.otgActive, s3);
        }
      }
    }
  }

  lemma FastChargeEnabledSafe(m: nat, sh: Shared)
    requires m >= 4
    ensures Safe(m, FastChargeEnabled(), NO_LOCK, sh)
  {
    var p := FastChargeEnabled();
    forall s1 | Rely(NO_LOCK, sh, s1) ensures SafeStep(m, p, NO_LOCK, s1) {
      forall s2 | Rely(G, s1, s2) ensures SafeStep(m - 1, p.next, G, s2) {
        forall r: Option<int> ensures Safe(m - 2, p.next.onSense(r), G, s2) {
          forall s3 | Rely(G, s2, s3) ensures SafeStep(m - 2, p.next.onSense(r), G, s3) {
            forall s4 | Rely(NO_LOCK, s3, s4)
              ensures r.Some? ==> SafeStep(m - 3, Get(FastCharge, fast => Done(fast)), NO_LOCK, s4)
            {
            }
          }
        }
      }
    }
  }

  lemma FastChargeStoreSafe(m: nat, enabled: bool, sh: Shared)
    requires m >= 28
    ensures Safe(m, FastChargeStore(enabled), NO_LOCK, sh)
  {
    var p := FastChargeStore(enabled);
    forall s1 | Rely(NO_LOCK, sh, s1) ensures SafeStep(m, p, NO_LOCK, s1) {
      var p1 := p.onGet(s1.fastCharge);
      forall s2 | Rely(NO_LOCK, s1, s2) && p1.Set? ensures SafeStep(m - 1, p1, NO_LOCK, s2) {
        ConfigureChargingSafe(0, m - 2, _ => Done(0), NO_LOCK, s2.WithField(FastCharge, if enabled then 1 else 0));
      }
    }
  }

  // poll_work, holding nothing of its own.

  lemma PollOnlineSafe(m: nat, online: int, sh: Shared)
    requires m >= 4
    ensures Safe(m, PollOnline(online), NO_LOCK, sh)
  {
    var p := PollOnline(online);
    if online >= 0 {
      forall s1 | Rely(NO_LOCK, sh, s1) ensures SafeStep(m, p, NO_LOCK, s1) {
        var p1 := p.onGet(s1.lastOnline);
        forall s2 | Rely(NO_LOCK, s1, s2) && p1.Set? ensures SafeStep(m - 1, p1, NO_LOCK, s2) {
          PollClearSafe(m - 2, s2.WithField(LastOnline, online));
        }
      }
    }
  }

  lemma PollClearSafe(m: nat, sh: Shared)
    requires m >= 2
    ensures Safe(m, UpdateBits(Cntl1, 0x08, 0, _ => Done(0)), NO_LOCK, sh)
  {
    forall s, v: bv8 | Rely(NO_LOCK, sh, s) && v & 0x08 == 0 & 0x08
      ensures Guarantee(NO_LOCK, s, s.WithReg(Cntl1, v))
    {
      OpeningIsAllowed(NO_LOCK, s, v);
    }
    UpdateBitsSafe(0, m, Cntl1, 0x08, 0, _ => Done(0), NO_LOCK, sh);
  }

  lemma PollReopenedSafe(m: nat, ret: int, online: int, sh: Shared)
    requires m >= 8
    ensures Safe(m, PollReopened(ret, online), NO_LOCK, sh)
  {
    if ret != 0 {
      PollOnlineSafe(m, online, sh);
    } else {
      forall q: nat, s | q >= 4 && Rely(NO_LOCK, sh, s) ensures Safe(q, PollOnline(online), NO_LOCK, s) {
        PollOnlineSafe(q, online, s);
      }
      GetStatusSafe(4, m, _ => PollOnline(online), NO_LOCK, sh);
    }
  }

  lemma PollReopenSafe(m: nat, online: int, sh: Shared)
    requires m >= 35
    ensures Safe(m, PollReopen(online), NO_LOCK, sh)
  {
    forall s1 | Rely(NO_LOCK, sh, s1) ensures SafeStep(m, PollReopen(online), NO_LOCK, s1) {
      PollOnlineSafe(m - 1, online, s1);
      forall r, q: nat, s | q >= 8 && Rely(NO_LOCK, s1, s) ensures Safe(q, PollReopened(r, online), NO_LOCK, s) {
        PollReopenedSafe(q, r, online, s);
      }
      ConfigureChargingSafe(8, m - 1, r => PollReopened(r, online), NO_LOCK, s1);
    }
  }

  lemma PollRecoverSafe(m: nat, status: int, online: int, sh: Shared)
    requires m >= 37
    ensures Safe(m, PollRecover(status, online), NO_LOCK, sh)
  {
    var p := PollRecover(status, online);
    PollOnlineSafe(m, online, sh);
    if online > 0 && status == NOT_CHARGING {
      forall s1 | Rely(NO_LOCK, sh, s1) ensures SafeStep(m, p, NO_LOCK, s1) {
        PollOnlineSafe(m - 1, online, s1);
        var p1 := p.onGet(s1.directCharging);
        forall s2 | Rely(NO_LOCK, s1, s2) && s1.directCharging == 0 ensures SafeStep(m - 1, p1, NO_LOCK, s2) {
          PollOnlineSafe(m - 2, online, s2);
          PollReopenSafe(m - 2, online, s2);
        }
      }
    }
  }

  lemma PollStatusSafe(m: nat, online: int, sh: Shared)
    requires m >= 41
    ensures Safe(m, PollRestatus(online), NO_LOCK, sh)
  {
    forall st, q: nat, s | q >= 37 && Rely(NO_LOCK, sh, s) ensures Safe(q, PollRecover(st, online), NO_LOCK, s) {
      PollRecoverSafe(q, st, online, s);
    }
    GetStatusSafe(37, m, st => PollRecover(st, online), NO_LOCK, sh);
  }

  lemma PollChangedSafe(m: nat, before: int, status: int, online: int, sh: Shared)
    requires m >= 68
    ensures Safe(m, PollChanged(before, status, online), NO_LOCK, sh)
  {
    forall s1 | Rely(NO_LOCK, sh, s1) ensures SafeStep(m, PollChanged(before, status, online), NO_LOCK, s1) {
      PollRecoverSafe(m - 1, status, online, s1);
      forall q: nat, s | q >= 41 && Rely(NO_LOCK, s1, s) ensures Safe(q, PollRestatus(online), NO_LOCK, s) {
        PollStatusSafe(q, online, s);
      }
      ConfigureChargingSafe(41, m - 1, _ => PollRestatus(online), NO_LOCK, s1);
    }
  }

  lemma PollTempSafe(m: nat, before: int, temp: Option<int>, status: int, online: int, sh: Shared)
    requires m >= 70
    ensures Safe(m, PollTemp(before, temp, status, online), NO_LOCK, sh)
  {
    var p := PollTemp(before, temp, status, online);
    PollChangedSafe(m, before, status, online, sh);
    if temp.Some? {
      forall s1 | Rely(NO_LOCK, sh, s1) ensures SafeStep(m, p, NO_LOCK, s1) {
        var th := Severity(NextThermal(ThermalOf(s1.thermalState), temp.value));
        forall s2 | Rely(NO_LOCK, s1, s2) ensures SafeStep(m - 1, p.onGet(s1.thermalState), NO_LOCK, s2) {
          PollChangedSafe(m - 2, before, status, online, s2.WithField(ThermalState, th));
        }
      }
    }
  }

  lemma PollThermalSafe(m: nat, status: int, online: int, sh: Shared)
    requires m >= 76
    ensures Safe(m, PollThermal(status, online), NO_LOCK, sh)
  {
    forall s1 | Rely(NO_LOCK, sh, s1) ensures SafeStep(m, PollThermal(status, online), NO_LOCK, s1) {
      PollRecoverSafe(m - 1, status, online, s1);
      var before := s1.thermalState;
      forall temp: Option<int>, q: nat, s | q >= 70 && Rely(NO_LOCK, s1, s)
        ensures Safe(q, PollTemp(before, temp, status, online), NO_LOCK, s)
      {
        PollTempSafe(q, before, temp, status, online, s);
      }
      GetTempSafe(70, m - 1, (temp: Option<int>) => PollTemp(before, temp, status, online), NO_LOCK, s1);
    }
  }

  lemma PollCountedSafe(m: nat, status: int, online: int, sh: Shared)
    requires m >= 82
    ensures Safe(m, PollCounted(status, online), NO_LOCK, sh)
  {
    var p := PollCounted(status, online);
    forall s1 | Rely(NO_LOCK, sh, s1) ensures SafeStep(m, p, NO_LOCK, s1) {
      var n := s1.pollCount;
      forall s2 | Rely(NO_LOCK, s1, s2) ensures SafeStep(m - 1, p.onGet(n), NO_LOCK, s2) {
        var s2' := s2.WithField(PollCount, (n + 1) % 0x1_0000_0000);
        forall s, q: nat | q >= 76 && Rely(NO_LOCK, s2', s) ensures Safe(q, PollThermal(status, online), NO_LOCK, s) {
          PollThermalSafe(q, status, online, s);
        }
        PollThermalSafe(m - 2, status, online, s2');
        GetCapacitySafe(76, m - 2, _ => PollThermal(status, online), NO_LOCK, s2');
      }
    }
  }

  lemma PollTypedSafe(m: nat, status: int, online: int, sh: Shared)
    requires m >= 86
    ensures Safe(m, PollTyped(status, online), NO_LOCK, sh)
  {
    forall q: nat, s | q >= 82 && Rely(NO_LOCK, sh, s) ensures Safe(q, PollCounted(status, online), NO_LOCK, s) {
      PollCountedSafe(q, status, online, s);
    }
    GetUsbTypeSafe(82, m, _ => PollCounted(status, online), NO_LOCK, sh);
  }

  lemma PollStatusedSafe(m: nat, status: int, sh: Shared)
    requires m >= 88
    ensures Safe(m, PollStatused(status), NO_LOCK, sh)
  {
    forall online, q: nat, s | q >= 86 && Rely(NO_LOCK, sh, s) ensures Safe(q, PollTyped(status, online), NO_LOCK, s) {
      PollTypedSafe(q, status, online, s);
    }
    GetOnlineSafe(86, m, online => PollTyped(status, online), NO_LOCK, sh);
  }

  lemma PollWorkSafe(m: nat, sh: Shared)
    requires m >= 92
    ensures Safe(m, PollWork(), NO_LOCK, sh)
  {
    forall status, q: nat, s | q >= 88 && Rely(NO_LOCK, sh, s) ensures Safe(q, PollStatused(status), NO_LOCK, s) {
      PollStatusedSafe(q, status, s);
    }
    GetStatusSafe(88, m, status => PollStatused(status), NO_LOCK, sh);
  }

  lemma ReadPropertySafe(m: nat, which: nat, sh: Shared)
    requires m >= 5
    ensures Safe(m, ReadProperty(which), NO_LOCK, sh)
  {
    GetStatusSafe(0, m, v => Done(v), NO_LOCK, sh);
    GetCapacitySafe(0, m, v => Done(v), NO_LOCK, sh);
    GetTempSafe(0, m, (v: Option<int>) => Done(if v.None? then EIO else v.value), NO_LOCK, sh);
    GetOnlineSafe(0, m, v => Done(v), NO_LOCK, sh);
    GetUsbTypeSafe(0, m, v => Done(v), NO_LOCK, sh);
  }

  // Every routine is done within 92 of its own accesses and is Safe on the way.
  lemma BodySafe(r: Routine, sh: Shared)
    ensures Safe(92, Body(r), NO_LOCK, sh)
  {
    match r
    case RSetPdContract(mv, ma) => SetPdContractSafe(92, mv, ma, sh);
    case RSetDirectCharge(active) => SetDirectChargeSafe(92, active, sh);
    case RSetOtg(on, otgMa) => SetOtgSafe(92, on, otgMa, sh);
    case RIsOtgActive => IsOtgActiveSafe(92, sh);
    case RFastChargeEnabled => FastChargeEnabledSafe(92, sh);
    case RFastChargeStore(enabled) => FastChargeStoreSafe(92, enabled, sh);
    case RPollWork => PollWorkSafe(92, sh);
    case RReadProperty(which) => ReadPropertySafe(92, which, sh);
  }
}
