/**
 * The battery driver written as it runs: methods over the shared registers and
 * fields, which other threads change between any two accesses. `todo` is what the
 * step program of Sm5714Battery still has to do; every access must be the next
 * one it prescribes, so the methods and the step programs take the same accesses
 * in the same order for every reading, failure and interleaving.
 */
module Sm5714Driver {
  import opened Wrappers
  import opened Sm5714Codes
  import opened Sm5714Machine
  import B = Sm5714Battery

  class BatteryDriver {
    var chip: Shared
    ghost var todo: Prog

    constructor (found: Shared, ghost call: B.Routine)
      ensures chip == found && todo == B.Body(call)
    {
      chip, todo := found, B.Body(call);
    }

    /** Accesses. */

    // Whatever the other threads do before the next access.
    method Elsewhere()
      modifies this`chip
    {
      var left: Shared := *;
      chip := left;
    }

    method MutexLock(m: Mutex)
      requires todo.Lock? && todo.m == m
      modifies this
      ensures todo == old(todo).next
    {
      Elsewhere();
      todo := todo.next;
    }

    method MutexUnlock(m: Mutex)
      requires todo.Unlock? && todo.m == m
      modifies this
      ensures todo == old(todo).next
    {
      Elsewhere();
      todo := todo.next;
    }

    method ReadReg(r: Reg) returns (v: Option<bv8>)
      requires todo.Read? && todo.reg == r
      modifies this
      ensures todo == old(todo).onRead(v) && (v.Some? ==> v.value == chip.RegVal(r))
    {
      Elsewhere();
      var ok: bool := *;
      v := if ok then Some(chip.RegVal(r)) else None;
      todo := todo.onRead(v);
    }

    method WriteReg(r: Reg, val: bv8) returns (ok: bool)
      requires todo.Write? && todo.reg == r && todo.val == val
      modifies this
      ensures todo == old(todo).onWrite(ok) && (ok ==> chip.RegVal(r) == val)
    {
      Elsewhere();
      ok := *;
      if ok { chip := chip.WithReg(r, val); }
      todo := todo.onWrite(ok);
    }

    method ReadSensor(source: Sensor) returns (v: Option<int>)
      requires todo.Sense? && todo.source == source
      modifies this
      ensures todo == old(todo).onSense(v) && (v.Some? ==> Plausible(source, v.value))
    {
      Elsewhere();
      var reading: int := *;
      var ok: bool := *;
      v := if ok && Plausible(source, reading) then Some(reading) else None;
      todo := todo.onSense(v);
    }

    method GetField(f: Field) returns (v: int)
      requires todo.Get? && todo.field == f
      modifies this
      ensures todo == old(todo).onGet(v) && v == chip.FieldVal(f)
    {
      Elsewhere();
      v := chip.FieldVal(f);
      todo := todo.onGet(v);
    }

    method SetField(f: Field, v: int)
      requires todo.Set? && todo.field == f && todo.newVal == v
      modifies this
      ensures todo == old(todo).next && chip.FieldVal(f) == v
    {
      Elsewhere();
      chip := chip.WithField(f, v);
      todo := todo.next;
    }

    /** Register helpers and readings; k is what the caller does with the result. */

    method UpdateBits(reg: Reg, mask: bv8, val: bv8, ghost k: int -> Prog) returns (ret: int)
      requires todo == B.UpdateBits(reg, mask, val, k)
      modifies this
      ensures todo == k(ret)
    {
      var was := ReadReg(reg);
      if was == None { return B.EIO; }
      var v := B.Merge(was.value, mask, val);
      if v == was.value { return 0; }
      var ok := WriteReg(reg, v);
      return if ok then 0 else B.EIO;
    }

    method SetFloatVoltage(ghost k: int -> Prog) returns (ret: int)
      requires todo == B.SetFloatVoltage(k)
      modifies this
      ensures todo == k(ret)
    {
      var uv := GetField(FloatUv);
      if uv <= 0 { return 0; }
      ret := UpdateBits(ChgCntl4, 0x3f, BatRegOffset(uv) as bv8, k);
    }

    method FgReadSram(ghost k: Option<int> -> Prog) returns (raw: Option<int>)
      requires todo == B.FgReadSram(k)
      modifies this
      ensures todo == k(raw)
    {
      MutexLock(Sram);
      var selected := ReadSensor(FgSelect);
      raw := None;
      if selected.Some? { raw := ReadSensor(FgData); }
      MutexUnlock(Sram);
    }

    method GetCapacity(ghost k: int -> Prog) returns (ret: int)
      requires todo == B.GetCapacity(k)
      modifies this
      ensures todo == k(ret)
    {
      var raw := FgReadSram((raw: Option<int>) =>
        if raw.None? then k(B.EIO)
        else k(if raw.value * 10 / 256 / 10 > 100 then 100 else raw.value * 10 / 256 / 10));
      if raw == None { return B.EIO; }
      ret := raw.value * 10 / 256 / 10;
      if ret > 100 { ret := 100; }
    }

    method GetTemp(ghost k: Option<int> -> Prog) returns (temp: Option<int>)
      requires todo == B.GetTemp(k)
      modifies this
      ensures todo == k(temp)
    {
      var mc := ReadSensor(Thermistor);
      if mc.Some? {
        var dc := B.RoundClosest100(mc.value);
        if -200 <= dc <= 900 { return Some(dc); }
      }
      var raw := FgReadSram((raw: Option<int>) => k(if raw.None? then None else Some(B.FgTemp(raw.value))));
      return if raw == None then None else Some(B.FgTemp(raw.value));
    }

    method GetOnlineRaw(ghost k: int -> Prog) returns (online: int)
      requires todo == B.GetOnlineRaw(k)
      modifies this
      ensures todo == k(online)
    {
      var st := ReadSensor(Status1);
      return if st == None then B.EIO else if B.Bit(st.value, 1) then 1 else 0;
    }

    method GetOnline(ghost k: int -> Prog) returns (online: int)
      requires todo == B.GetOnline(k)
      modifies this
      ensures todo == k(online)
    {
      var otg := GetField(OtgActive);
      if otg != 0 { return 0; }
      online := GetOnlineRaw(k);
    }

    method GetStatus(ghost k: int -> Prog) returns (status: int)
      requires todo == B.GetStatus(k)
      modifies this
      ensures todo == k(status)
    {
      var otg := GetField(OtgActive);
      if otg != 0 { return B.DISCHARGING; }
      var st1 := ReadSensor(Status1);
      if st1 == None { return B.EIO; }
      var st2 := ReadSensor(Status2);
      if st2 == None { return B.EIO; }
      var direct := GetField(DirectCharging);
      return B.StatusOf(st1.value, st2.value, direct);
    }

    method GetUsbType(ghost k: int -> Prog) returns (usbType: int)
      requires todo == B.GetUsbType(k)
      modifies this
      ensures todo == k(usbType)
    {
      var online := GetOnline(online => B.UsbTypeWhen(online, k));
      if online < 0 { return online; }
      if online == 0 { return B.UNKNOWN; }
      var mv := GetField(TypecMv);
      if mv > 5000 { return B.PD; }
      var t := ReadSensor(MuicType);
      return if t == None then B.EIO else B.MuicUsbType(t.value);
    }

    /** The D-/D+ switch. */

    method MuicOn(ghost k: int -> Prog) returns (ret: int)
      requires todo == B.MuicOn(k)
      modifies this
      ensures todo == k(ret)
    {
      var cntl := ReadReg(MuicCntl);
      if cntl == None { return B.EIO; }
      assert todo == B.MuicOnBc12(cntl.value, cntl.value | 0x02, k);
      var ok := WriteReg(MuicCntl, cntl.value | 0x02);
      if !ok { return B.EIO; }
      assert todo == B.MuicOnPath(cntl.value, k);
      ret := ManualPath(cntl.value, k);
    }

    // Select the manual USB path; on failure the detection setting comes back.
    method ManualPath(oldCntl: bv8, ghost k: int -> Prog) returns (ret: int)
      requires todo == B.MuicOnPath(oldCntl, k)
      modifies this
      ensures todo == k(ret)
    {
      var sw := ReadReg(MuicSw);
      if sw.Some? {
        var path := (sw.value & !0xbf) | 0x80 | 0x09;
        assert todo == B.MuicOnSwitch(oldCntl, path, k);
        var ok := WriteReg(MuicSw, path);
        if ok { return 0; }
      }
      assert todo == B.MuicRestore(oldCntl, k);
      var _ := WriteReg(MuicCntl, oldCntl);
      return B.EIO;
    }

    method MuicOff(ghost k: int -> Prog) returns (ret: int)
      requires todo == B.MuicOff(k)
      modifies this
      ensures todo == k(ret)
    {
      var sw := ReadReg(MuicSw);
      if sw == None { return B.EIO; }
      assert todo == B.MuicOffSwitch(sw.value & !0xbf, k);
      var ok := WriteReg(MuicSw, sw.value & !0xbf);
      if !ok { return B.EIO; }
      assert todo == B.MuicOffBc12(k);
      ret := Bc12On(k);
    }

    method Bc12On(ghost k: int -> Prog) returns (ret: int)
      requires todo == B.MuicOffBc12(k)
      modifies this
      ensures todo == k(ret)
    {
      var cntl := ReadReg(MuicCntl);
      if cntl == None { return B.EIO; }
      assert todo == B.MuicOffTo(cntl.value & !0x02, k);
      var ok := WriteReg(MuicCntl, cntl.value & !0x02);
      return if ok then 0 else B.EIO;
    }

    /** Charger programming. */

    method ConfigureCharging(ghost k: int -> Prog) returns (ret: int)
      requires todo == B.ConfigureCharging(k)
      modifies this
      ensures todo == k(ret)
    {
      MutexLock(Chg);
      ret := ConfigureLocked(k);
      MutexUnlock(Chg);
    }

    method ConfigureLocked(ghost k: int -> Prog) returns (ret: int)
      requires todo == B.ConfigureCharging(k).next
      modifies this
      ensures todo == B.ConfigureOut(ret, k)
    {
      var otg := GetField(OtgActive);
      if otg != 0 { return B.EBUSY; }
      var mv := GetField(TypecMv);
      var ma := GetField(TypecMa);
      var usbType := GetUsbType(usbType => B.ConfigureFor(mv, ma, usbType, k));
      if usbType < 0 { return usbType; }
      var thermal := UpdateThermal(mv, ma, usbType, k);
      ret := ApplyLimits(thermal, mv, ma, usbType, k);
    }

    method UpdateThermal(mv: int, ma: int, usbType: int, ghost k: int -> Prog) returns (thermal: Thermal)
      requires usbType >= 0 && todo == B.ConfigureFor(mv, ma, usbType, k)
      modifies this
      ensures todo == B.ConfigureLimits(thermal, mv, ma, usbType, k)
    {
      var th := GetField(ThermalState);
      thermal := B.ThermalOf(th);
      var temp := GetTemp((temp: Option<int>) => B.ConfigureThermal(B.ThermalOf(th), temp, mv, ma, usbType, k));
      if temp.Some? {
        var now := GetField(ThermalState);
        thermal := NextThermal(B.ThermalOf(now), temp.value);
        SetField(ThermalState, Severity(thermal));
      }
    }

    method ApplyLimits(thermal: Thermal, mv: int, ma: int, usbType: int, ghost k: int -> Prog) returns (ret: int)
      requires todo == B.ConfigureLimits(thermal, mv, ma, usbType, k)
      modifies this
      ensures todo == B.ConfigureOut(ret, k)
    {
      hide B.UpdateBits, B.ConfigureOut, B.Budgets, B.Program;
      if thermal == Stop {
        ret := UpdateBits(Cntl1, 0x08, 0, r => B.ConfigureOut(r, k));
        return;
      }
      var fast := 0;
      if B.Contract(mv, ma) { fast := GetField(FastCharge); }
      var budget := B.Budgets(B.Contract(mv, ma) && fast != 0, mv, ma, usbType, thermal);
      ret := ProgramPath(budget.0, budget.1, k);
    }

    // Lower the input limit, set the charge current, close Q4, restore the limit.
    method ProgramPath(inputMa: nat, packMa: nat, ghost k: int -> Prog) returns (ret: int)
      requires todo == B.Program((inputMa, packMa), k)
      modifies this
      ensures todo == B.ConfigureOut(ret, k)
    {
      hide B.UpdateBits, B.ConfigureOut, B.SetFloatVoltage;
      var ok := WriteReg(VbusCntl, InputCurrentReg(500) as bv8);
      if !ok { return B.EIO; }
      assert todo == B.ProgramPack(inputMa, packMa, k);
      ok := WriteReg(ChgCntl2, FastCurrentReg(packMa) as bv8);
      if !ok { return B.EIO; }
      ret := SetFloatVoltage(r => B.CloseQ4(r, inputMa, k));
      if ret != 0 { return; }
      ret := UpdateBits(Cntl1, 0x08, 0x08, r => B.RaiseInput(r, inputMa, k));
      if ret != 0 { return; }
      ok := WriteReg(VbusCntl, InputCurrentReg(inputMa) as bv8);
      return if ok then 0 else B.EIO;
    }

    /** Calls from the other drivers. */

    method SetPdContract(mv: nat, ma: nat) returns (ret: int)
      requires todo == B.SetPdContract(mv, ma)
      modifies this
      ensures todo == Done(ret)
    {
      hide B.ConfigureCharging, B.GetOnline;
      if (mv != 0 && (mv < 5000 || mv > 9000)) || ma > 3000 { return B.ERANGE; }
      MutexLock(Global);
      var primary := ReadSensor(Primary);
      if primary == None {
        ret := B.EPROBE_DEFER;
      } else {
        SetField(TypecMv, mv);
        SetField(TypecMa, ma);
        ret := 0;
        if mv != 0 && ma != 0 {
          var online := GetOnline(online => B.PdWhen(online));
          if online > 0 {
            var direct := GetField(DirectCharging);
            if direct == 0 {
              ret := ConfigureCharging(r => Unlock(Global, Done(r)));
            }
          }
        }
      }
      MutexUnlock(Global);
    }

    method SetDirectCharge(active: bool) returns (ret: int)
      requires todo == B.SetDirectCharge(active)
      modifies this
      ensures todo == Done(ret)
    {
      hide B.ConfigureCharging, B.GetOnline, B.GetTemp, B.UpdateBits;
      MutexLock(Global);
      var primary := ReadSensor(Primary);
      if primary == None {
        ret := B.EPROBE_DEFER;
      } else if active {
        ret := OpenForPump();
      } else {
        SetField(DirectCharging, 0);
        var online := GetOnline(online => B.DirectBack(online));
        ret := 0;
        if online > 0 {
          ret := ConfigureCharging(r => Unlock(Global, Done(r)));
        }
      }
      MutexUnlock(Global);
    }

    method OpenForPump() returns (ret: int)
      requires todo == B.DirectOn()
      modifies this
      ensures todo == Unlock(Global, Done(ret))
    {
      hide B.GetTemp, B.UpdateBits;
      var temp := GetTemp((temp: Option<int>) => B.DirectWarm(temp));
      if temp == None { return B.EIO; }
      if temp.value < 100 || temp.value >= 420 { return B.ERANGE; }
      SetField(DirectCharging, 1);
      MutexLock(Chg);
      ret := UpdateBits(Cntl1, 0x08, 0, r => B.DirectOpened(r));
      MutexUnlock(Chg);
      if ret != 0 { SetField(DirectCharging, 0); }
    }

    method SetOtg(active: bool, otgMa: bv8) returns (ret: int)
      requires todo == B.SetOtg(active, otgMa)
      modifies this
      ensures todo == Done(ret)
    {
      hide B.OtgOn, B.OtgOff;
      MutexLock(Global);
      var primary := ReadSensor(Primary);
      if primary == None {
        MutexUnlock(Global);
        return B.EPROBE_DEFER;
      }
      var otg := GetField(OtgActive);
      if active == (otg != 0) {
        MutexUnlock(Global);
        return 0;
      }
      if active {
        ret := BoostOn(otgMa);
      } else {
        ret := BoostOff();
      }
    }

    method BoostOn(otgMa: bv8) returns (ret: int)
      requires todo == B.OtgOn(otgMa)
      modifies this
      ensures todo == Done(ret)
    {
      hide B.MuicOn, B.GetOnlineRaw;
      var direct := GetField(DirectCharging);
      ret := B.EBUSY;
      if direct == 0 {
        var online := GetOnlineRaw(online => B.OtgOffline(online, otgMa));
        if online < 0 {
          ret := online;
        } else if online == 0 {
          MutexLock(Chg);
          ret := BoostLocked(otgMa);
          MutexUnlock(Chg);
        }
      }
      MutexUnlock(Global);
    }

    method BoostLocked(otgMa: bv8) returns (ret: int)
      requires todo == B.MuicOn(r => B.OtgOpenQ4(r, otgMa))
      modifies this
      ensures todo == Unlock(Chg, Unlock(Global, Done(ret)))
    {
      hide B.MuicOn, B.MuicOff, B.UpdateBits, B.BoostSetting;
      ret := MuicOn(r => B.OtgOpenQ4(r, otgMa));
      if ret != 0 { UndoBoost(ret); return; }
      ret := UpdateBits(Cntl1, 0x08, 0, r => B.OtgSetting(r, otgMa));
      if ret != 0 { UndoBoost(ret); return; }
      ret := UpdateBits(BstCntl1, 0xcf, B.BoostSetting(otgMa), r => B.OtgPower(r));
      if ret != 0 { UndoBoost(ret); return; }
      ret := UpdateBits(Cntl2, 0x0f, 0x07, r => B.OtgBoosted(r));
      if ret != 0 { UndoBoost(ret); return; }
      SetField(OtgActive, 1);
    }

    // Back to the charger's own data path; the first error is the one reported.
    method UndoBoost(ret: int)
      requires todo == B.OtgUndo(ret)
      modifies this
      ensures todo == Unlock(Chg, Unlock(Global, Done(ret)))
    {
      hide B.MuicOff;
      var _ := MuicOff(_ => Unlock(Chg, Unlock(Global, Done(ret))));
    }

    method BoostOff() returns (ret: int)
      requires todo == B.OtgOff()
      modifies this
      ensures todo == Done(ret)
    {
      hide B.UpdateBits, B.MuicOff, B.GetOnlineRaw, B.ConfigureCharging;
      MutexLock(Chg);
      ret := UpdateBits(Cntl2, 0x0f, 0x05, r => B.OtgUnboosted(r));
      if ret != 0 {
        MutexUnlock(Chg);
        MutexUnlock(Global);
        return;
      }
      SetField(OtgActive, 0);
      ret := MuicOff(r => Unlock(Chg, B.OtgOffTail(r)));
      MutexUnlock(Chg);
      if ret != 0 {
        MutexUnlock(Global);
        return;
      }
      var online := GetOnlineRaw(online => B.OtgOffCharge(online));
      MutexUnlock(Global);
      if online > 0 { ret := ConfigureCharging(r => Done(r)); }
    }

    method IsOtgActive() returns (ret: int)
      requires todo == B.IsOtgActive()
      modifies this
      ensures todo == Done(ret)
    {
      MutexLock(Global);
      var primary := ReadSensor(Primary);
      ret := 0;
      if primary.Some? { ret := GetField(OtgActive); }
      MutexUnlock(Global);
    }

    method FastChargeEnabled() returns (ret: int)
      requires todo == B.FastChargeEnabled()
      modifies this
      ensures todo == Done(ret)
    {
      MutexLock(Global);
      var primary := ReadSensor(Primary);
      MutexUnlock(Global);
      ret := 0;
      if primary.Some? { ret := GetField(FastCharge); }
    }

    /** The sysfs switch and the poll. */

    method FastChargeStore(enabled: bool)
      requires todo == B.FastChargeStore(enabled)
      modifies this
      ensures todo == Done(0)
    {
      hide B.ConfigureCharging;
      var fast := GetField(FastCharge);
      if enabled == (fast != 0) { return; }
      SetField(FastCharge, if enabled then 1 else 0);
      var _ := ConfigureCharging(_ => Done(0));
    }

    method PollWork()
      requires todo == B.PollWork()
      modifies this
      ensures todo == Done(0)
    {
      hide B.GetStatus, B.GetOnline, B.GetUsbType, B.GetCapacity, B.PollThermal;
      var status := GetStatus(status => B.PollStatused(status));
      var online := GetOnline(online => B.PollTyped(status, online));
      var _ := GetUsbType(_ => B.PollCounted(status, online));
      var n := GetField(PollCount);
      SetField(PollCount, (n + 1) % 0x1_0000_0000);
      if n % 10 == 0 {
        var _ := GetCapacity(_ => B.PollThermal(status, online));
      }
      status := PollTemperature(status, online);
      PollReconnect(status, online);
      PollPlug(online);
    }

    // The thermal branch: a change of state reprograms the charger at once.
    method PollTemperature(was: int, online: int) returns (status: int)
      requires todo == B.PollThermal(was, online)
      modifies this
      ensures todo == B.PollRecover(status, online)
    {
      hide B.GetTemp, B.GetStatus, B.ConfigureCharging, B.PollRecover;
      status := was;
      var before := GetField(ThermalState);
      if online <= 0 { return; }
      var temp := GetTemp((temp: Option<int>) => B.PollTemp(before, temp, was, online));
      if temp.Some? {
        var th := GetField(ThermalState);
        SetField(ThermalState, Severity(NextThermal(B.ThermalOf(th), temp.value)));
      }
      var now := GetField(ThermalState);
      if now == before { return; }
      var _ := ConfigureCharging(_ => B.PollRestatus(online));
      status := GetStatus(st => B.PollRecover(st, online));
    }

    // Q4 found open with a source present: program the charger again.
    method PollReconnect(status: int, online: int)
      requires todo == B.PollRecover(status, online)
      modifies this
      ensures todo == B.PollOnline(online)
    {
      hide B.GetStatus, B.ConfigureCharging, B.PollOnline;
      if online <= 0 || status != B.NOT_CHARGING { return; }
      var direct := GetField(DirectCharging);
      if direct != 0 { return; }
      var th := GetField(ThermalState);
      if B.ThermalOf(th) == Stop { return; }
      assert todo == B.PollReopen(online);
      var cntl := ReadReg(Cntl1);
      if cntl == None || cntl.value & 0x08 != 0 { return; }
      var ret := ConfigureCharging(r => B.PollReopened(r, online));
      if ret != 0 { return; }
      var _ := GetStatus(_ => B.PollOnline(online));
    }

    method PollPlug(online: int)
      requires todo == B.PollOnline(online)
      modifies this
      ensures todo == Done(0)
    {
      hide B.UpdateBits;
      if online < 0 { return; }
      var last := GetField(LastOnline);
      if (online != 0) == (last != 0) { return; }
      SetField(LastOnline, online);
      if online == 0 {
        var _ := UpdateBits(Cntl1, 0x08, 0, _ => Done(0));
      }
    }

    method ReadProperty(which: nat) returns (v: int)
      requires todo == B.ReadProperty(which)
      modifies this
      ensures todo == Done(v)
    {
      hide B.GetStatus, B.GetCapacity, B.GetTemp, B.GetOnline, B.GetUsbType;
      if which == 0 {
        v := GetStatus(v => Done(v));
      } else if which == 1 {
        v := GetCapacity(v => Done(v));
      } else if which == 2 {
        var temp := GetTemp((v: Option<int>) => Done(if v.None? then B.EIO else v.value));
        v := if temp == None then B.EIO else temp.value;
      } else if which == 3 {
        v := GetOnline(v => Done(v));
      } else {
        v := GetUsbType(v => Done(v));
      }
    }
  }
}
