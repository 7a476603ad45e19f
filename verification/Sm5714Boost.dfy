/**
 * When the boost may start: in every run of the battery driver, the step that starts it
 * belongs to a call that has seen no direct charging and no source on VBUS.
 */
module Sm5714Boost {
  import opened Wrappers
  import opened Sm5714Codes
  import opened Sm5714Machine
  import opened Sm5714Battery
  import opened Sm5714Runs

  /** What a routine has yet to see. */

  // Whatever the accesses of p return, it writes boost mode only after reading
  // direct_charging as 0 and STATUS1 with bit 0 clear; idle and absent say which of the
  // two it has seen already.
  ghost predicate Cautious(n: nat, p: Prog, idle: bool, absent: bool)
    decreases n
  {
    if p.Done? || (idle && absent) then true else n > 0 && CautiousStep(n, p, idle, absent)
  }

  ghost predicate CautiousStep(n: nat, p: Prog, idle: bool, absent: bool)
    requires n > 0 && !p.Done?
    decreases n, 0
  {
    match p
    case Lock(_, next) => Cautious(n - 1, next, idle, absent)
    case Unlock(_, next) => Cautious(n - 1, next, idle, absent)
    case Read(_, f) => Cautious(n - 1, f(None), idle, absent) && forall v :: Cautious(n - 1, f(Some(v)), idle, absent)
    case Write(r, v, f) =>
      && !(r == Cntl2 && v & 0x0f == 0x07)
      && Cautious(n - 1, f(false), idle, absent) && Cautious(n - 1, f(true), idle, absent)
    case Sense(s, f) =>
      && Cautious(n - 1, f(None), idle, absent)
      && forall v :: Plausible(s, v) ==> Cautious(n - 1, f(Some(v)), idle, absent || (s == Status1 && v % 2 == 0))
    case Get(fd, k) => forall v :: Cautious(n - 1, k(v), idle || (fd == DirectCharging && v == 0), absent)
    case Set(_, _, next) => Cautious(n - 1, next, idle, absent)
  }

  lemma {:induction false} CautiousMore(n: nat, m: nat, p: Prog, i: bool, a: bool, i': bool, a': bool)
    requires Cautious(n, p, i, a) && n <= m && (i ==> i') && (a ==> a')
    ensures Cautious(m, p, i', a')
    decreases n
  {
    if !p.Done? && !(i' && a') {
      match p
      case Lock(_, next) => CautiousMore(n - 1, m - 1, next, i, a, i', a');
      case Unlock(_, next) => CautiousMore(n - 1, m - 1, next, i, a, i', a');
      case Read(_, f) =>
        CautiousMore(n - 1, m - 1, f(None), i, a, i', a');
        forall v ensures Cautious(m - 1, f(Some(v)), i', a') {
          CautiousMore(n - 1, m - 1, f(Some(v)), i, a, i', a');
        }
      case Write(_, _, f) =>
        CautiousMore(n - 1, m - 1, f(false), i, a, i', a');
        CautiousMore(n - 1, m - 1, f(true), i, a, i', a');
      case Sense(s, f) =>
        CautiousMore(n - 1, m - 1, f(None), i, a, i', a');
        forall v | Plausible(s, v) ensures Cautious(m - 1, f(Some(v)), i', a' || (s == Status1 && v % 2 == 0)) {
          var b := s == Status1 && v % 2 == 0;
          CautiousMore(n - 1, m - 1, f(Some(v)), i, a || b, i', a' || b);
        }
      case Get(fd, k) =>
        forall v ensures Cautious(m - 1, k(v), i' || (fd == DirectCharging && v == 0), a') {
          var b := fd == DirectCharging && v == 0;
          CautiousMore(n - 1, m - 1, k(v), i || b, a, i' || b, a');
        }
      case Set(_, _, next) => CautiousMore(n - 1, m - 1, next, i, a, i', a');
    }
  }

  ghost predicate Calm<T(!new)>(n: nat, k: T -> Prog, i: bool, a: bool) {
    forall r: T :: Cautious(n, k(r), i, a)
  }

  /** The shared parts. */

  // The second half of a gauge read.
  function SramData(k: Option<int> -> Prog): Prog {
    Sense(FgData, (raw: Option<int>) => Unlock(Sram, k(raw)))
  }

  lemma SramDataCalm(n: nat, k: Option<int> -> Prog, i: bool, a: bool)
    requires Calm(n, k, i, a)
    ensures Cautious(n + 2, SramData(k), i, a)
  {
    var p := SramData(k);
    forall raw: Option<int> ensures Cautious(n + 1, p.onSense(raw), i, a) {
      assert p.onSense(raw) == Unlock(Sram, k(raw));
    }
  }

  lemma SramCalm(n: nat, k: Option<int> -> Prog, i: bool, a: bool)
    requires Calm(n, k, i, a)
    ensures Cautious(n + 4, FgReadSram(k), i, a)
  {
    hide SramData;
    var sel := FgReadSram(k).next;
    SramDataCalm(n, k, i, a);
    SramFails(n, k, i, a);
    forall v: int ensures sel.onSense(Some(v)) == SramData(k) { SramNext(k, v); }
    assert Cautious(n + 3, sel, i, a);
  }

  lemma SramNext(k: Option<int> -> Prog, v: int)
    ensures FgReadSram(k).next.onSense(Some(v)) == SramData(k)
  {
  }

  lemma SramFails(n: nat, k: Option<int> -> Prog, i: bool, a: bool)
    requires Calm(n, k, i, a)
    ensures Cautious(n + 2, FgReadSram(k).next.onSense(None), i, a)
  {
    CautiousMore(n, n + 1, k(None), i, a, i, a);
    assert FgReadSram(k).next.onSense(None) == Unlock(Sram, k(None));
  }

  lemma GaugeCalm(n: nat, k: Option<int> -> Prog, i: bool, a: bool)
    requires Calm(n, k, i, a)
    ensures Cautious(n + 4, GaugeTemp(k), i, a)
  {
    SramCalm(n, (raw: Option<int>) => k(if raw.None? then None else Some(FgTemp(raw.value))), i, a);
  }

  lemma TempCalm(n: nat, k: Option<int> -> Prog, i: bool, a: bool)
    requires Calm(n, k, i, a)
    ensures Cautious(n + 5, GetTemp(k), i, a)
  {
    hide GaugeTemp;
    GaugeCalm(n, k, i, a);
    forall mc ensures Cautious(n + 4, GetTemp(k).onSense(Some(mc)), i, a) {
      var t := RoundClosest100(mc);
      assert GetTemp(k).onSense(Some(mc)) == PackTemp(t, k);
      CautiousMore(n, n + 4, k(Some(t)), i, a, i, a);
    }
  }

  lemma CapacityCalm(n: nat, k: int -> Prog, i: bool, a: bool)
    requires Calm(n, k, i, a)
    ensures Cautious(n + 4, GetCapacity(k), i, a)
  {
    SramCalm(n, (raw: Option<int>) =>
      if raw.None? then k(EIO)
      else k(if raw.value * 10 / 256 / 10 > 100 then 100 else raw.value * 10 / 256 / 10), i, a);
  }

  lemma RawOnlineCalm(n: nat, k: int -> Prog, i: bool, a: bool)
    requires Calm(n, k, i, a)
    ensures Cautious(n + 1, GetOnlineRaw(k), i, a)
  {
    var p := GetOnlineRaw(k);
    forall v ensures Cautious(n, p.onSense(Some(v)), i, a || v % 2 == 0) {
      var r := if Bit(v, 1) then 1 else 0;
      assert p.onSense(Some(v)) == k(r);
      CautiousMore(n, n, k(r), i, a, i, a || v % 2 == 0);
    }
    assert p.onSense(None) == k(EIO);
  }

  lemma OnlineCalm(n: nat, k: int -> Prog, i: bool, a: bool)
    requires Calm(n, k, i, a)
    ensures Cautious(n + 2, GetOnline(k), i, a)
  {
    hide GetOnlineRaw;
    RawOnlineCalm(n, k, i, a);
    var p := GetOnline(k);
    forall v ensures Cautious(n + 1, p.onGet(v), i, a) {
      CautiousMore(n, n + 1, k(0), i, a, i, a);
    }
  }

  lemma UsbTypeCalm(n: nat, k: int -> Prog, i: bool, a: bool)
    requires Calm(n, k, i, a)
    ensures Cautious(n + 4, GetUsbType(k), i, a)
  {
    forall online ensures Cautious(n + 2, UsbTypeWhen(online, k), i, a) {
      CautiousMore(n, n + 2, k(online), i, a, i, a);
      CautiousMore(n, n + 2, k(UNKNOWN), i, a, i, a);
      var p := Get(TypecMv, mv => UsbTypeAt(mv, k));
      forall mv ensures Cautious(n + 1, p.onGet(mv), i, a) {
        TypeAtCalm(n, mv, k, i, a);
        assert p.onGet(mv) == UsbTypeAt(mv, k);
      }
    }
    OnlineCalm(n + 2, online => UsbTypeWhen(online, k), i, a);
  }

  lemma TypeAtCalm(n: nat, mv: int, k: int -> Prog, i: bool, a: bool)
    requires Calm(n, k, i, a)
    ensures Cautious(n + 1, UsbTypeAt(mv, k), i, a)
  {
    CautiousMore(n, n + 1, k(PD), i, a, i, a);
    if mv <= 5000 {
      var p := UsbTypeAt(mv, k);
      assert p.onSense(None) == k(EIO);
      forall v ensures Cautious(n, p.onSense(Some(v)), i, a) {
        assert p.onSense(Some(v)) == k(MuicUsbType(v));
      }
    }
  }

  lemma StatusCalm(n: nat, k: int -> Prog, i: bool, a: bool)
    requires Calm(n, k, i, a)
    ensures Cautious(n + 4, GetStatus(k), i, a)
  {
    var p := GetStatus(k);
    CautiousMore(n, n + 3, k(DISCHARGING), i, a, i, a);
    CautiousMore(n, n + 2, k(EIO), i, a, i, a);
    forall otg ensures Cautious(n + 3, p.onGet(otg), i, a) {
      if otg == 0 {
        var one := p.onGet(0);
        assert one.Sense? && one.source == Status1;
        assert one.onSense(None) == k(EIO);
        forall v1 ensures Cautious(n + 2, one.onSense(Some(v1)), i, a || v1 % 2 == 0) {
          SecondCalm(n, v1, k, i, a);
          assert one.onSense(Some(v1)) == Second(v1, k);
          CautiousMore(n + 2, n + 2, Second(v1, k), i, a, i, a || v1 % 2 == 0);
        }
      }
    }
  }

  // The second half of the status.
  function Second(v1: int, k: int -> Prog): Prog {
    Sense(Status2, (st2: Option<int>) =>
      if st2.None? then k(EIO) else Get(DirectCharging, direct => k(StatusOf(v1, st2.value, direct))))
  }

  lemma SecondCalm(n: nat, v1: int, k: int -> Prog, i: bool, a: bool)
    requires Calm(n, k, i, a)
    ensures Cautious(n + 2, Second(v1, k), i, a)
  {
    var two := Second(v1, k);
    CautiousMore(n, n + 1, k(EIO), i, a, i, a);
    forall v2 ensures Cautious(n + 1, two.onSense(Some(v2)), i, a) {
      var p := two.onSense(Some(v2));
      forall d ensures Cautious(n, p.onGet(d), i || d == 0, a) {
        assert p.onGet(d) == k(StatusOf(v1, v2, d));
        CautiousMore(n, n, k(StatusOf(v1, v2, d)), i, a, i || d == 0, a);
      }
    }
  }

  // Any field but the boost mode itself.
  lemma UpdateCalm(n: nat, reg: Reg, mask: bv8, val: bv8, k: int -> Prog, i: bool, a: bool)
    requires Calm(n, k, i, a) && (reg == Cntl2 ==> mask & 0x0f == 0x0f && val & 0x0f != 0x07)
    ensures Cautious(n + 2, UpdateBits(reg, mask, val, k), i, a)
  {
    var p := UpdateBits(reg, mask, val, k);
    CautiousMore(n, n + 1, k(EIO), i, a, i, a);
    CautiousMore(n, n + 1, k(0), i, a, i, a);
    forall was ensures Cautious(n + 1, p.onRead(Some(was)), i, a) {
      var v := Merge(was, mask, val);
      assert p.onRead(Some(was)) == UpdateTo(reg, was, v, k);
      if reg == Cntl2 { NoBoost(was, mask, val); }
    }
  }

  lemma NoBoost(was: bv8, mask: bv8, val: bv8)
    requires mask & 0x0f == 0x0f && val & 0x0f != 0x07
    ensures Merge(was, mask, val) & 0x0f != 0x07
  {
  }

  lemma Bc12Calm(n: nat, k: int -> Prog, i: bool, a: bool)
    requires Calm(n, k, i, a)
    ensures Cautious(n + 2, MuicOffBc12(k), i, a)
  {
    CautiousMore(n, n + 1, k(EIO), i, a, i, a);
    var p := MuicOffBc12(k);
    forall c ensures Cautious(n + 1, p.onRead(Some(c)), i, a) {
      assert p.onRead(Some(c)) == MuicOffTo(c & !0x02, k);
      WriteCalm(n, c & !0x02, k, i, a);
    }
  }

  lemma WriteCalm(n: nat, v: bv8, k: int -> Prog, i: bool, a: bool)
    requires Calm(n, k, i, a)
    ensures Cautious(n + 1, MuicOffTo(v, k), i, a)
  {
    assert MuicOffTo(v, k).onWrite(true) == k(0) && MuicOffTo(v, k).onWrite(false) == k(EIO);
  }

  lemma SwitchCalm(n: nat, v: bv8, k: int -> Prog, i: bool, a: bool)
    requires Calm(n, k, i, a)
    ensures Cautious(n + 3, MuicOffSwitch(v, k), i, a)
  {
    hide MuicOffBc12;
    Bc12Calm(n, k, i, a);
    CautiousMore(n, n + 2, k(EIO), i, a, i, a);
  }

  lemma PathOffCalm(n: nat, k: int -> Prog, i: bool, a: bool)
    requires Calm(n, k, i, a)
    ensures Cautious(n + 4, MuicOff(k), i, a)
  {
    hide MuicOffSwitch;
    CautiousMore(n, n + 3, k(EIO), i, a, i, a);
    var p := MuicOff(k);
    forall sw ensures Cautious(n + 3, p.onRead(Some(sw)), i, a) {
      assert p.onRead(Some(sw)) == MuicOffSwitch(sw & !0xbf, k);
      SwitchCalm(n, sw & !0xbf, k, i, a);
    }
  }

  /** configure_charging. */

  lemma OutCalm(n: nat, ret: int, k: int -> Prog, i: bool, a: bool)
    requires Calm(n, k, i, a)
    ensures Cautious(n + 1, ConfigureOut(ret, k), i, a)
  {
  }

  lemma CloseCalm(n: nat, ret: int, inputMa: nat, k: int -> Prog, i: bool, a: bool)
    requires Calm(n, k, i, a)
    ensures Cautious(n + 4, CloseQ4(ret, inputMa, k), i, a)
  {
    forall r: int ensures Cautious(n + 2, RaiseInput(r, inputMa, k), i, a) {
      OutCalm(n, r, k, i, a);
      OutCalm(n, 0, k, i, a);
      OutCalm(n, EIO, k, i, a);
      CautiousMore(n + 1, n + 2, ConfigureOut(r, k), i, a, i, a);
    }
    UpdateCalm(n + 2, Cntl1, 0x08, 0x08, r => RaiseInput(r, inputMa, k), i, a);
    OutCalm(n, ret, k, i, a);
    CautiousMore(n + 1, n + 4, ConfigureOut(ret, k), i, a, i, a);
  }

  lemma FloatCalm(n: nat, inputMa: nat, k: int -> Prog, i: bool, a: bool)
    requires Calm(n, k, i, a)
    ensures Cautious(n + 7, SetFloatVoltage(r => CloseQ4(r, inputMa, k)), i, a)
  {
    hide CloseQ4, UpdateBits;
    var f := (r: int) => CloseQ4(r, inputMa, k);
    forall r: int ensures Cautious(n + 4, f(r), i, a) { CloseCalm(n, r, inputMa, k, i, a); }
    CautiousMore(n + 4, n + 6, f(0), i, a, i, a);
    var p := SetFloatVoltage(f);
    forall uv ensures Cautious(n + 6, p.onGet(uv), i, a) {
      if uv > 0 { UpdateCalm(n + 4, ChgCntl4, 0x3f, BatRegOffset(uv) as bv8, f, i, a); }
      assert p.onGet(uv) == FloatTo(uv, f);
    }
  }

  lemma ProgramCalm(n: nat, budget: (nat, nat), k: int -> Prog, i: bool, a: bool)
    requires Calm(n, k, i, a)
    ensures Cautious(n + 9, Program(budget, k), i, a)
  {
    hide SetFloatVoltage;
    FloatCalm(n, budget.0, k, i, a);
    OutCalm(n, EIO, k, i, a);
    CautiousMore(n + 1, n + 7, ConfigureOut(EIO, k), i, a, i, a);
    CautiousMore(n + 1, n + 8, ConfigureOut(EIO, k), i, a, i, a);
    assert Cautious(n + 8, ProgramPack(budget.0, budget.1, k), i, a);
  }

  lemma LimitsCalm(n: nat, th: Thermal, mv: int, ma: int, usbType: int, k: int -> Prog, i: bool, a: bool)
    requires Calm(n, k, i, a)
    ensures Cautious(n + 10, ConfigureLimits(th, mv, ma, usbType, k), i, a)
  {
    hide Program, UpdateBits, Budgets;
    var p := ConfigureLimits(th, mv, ma, usbType, k);
    if th == Stop {
      forall r: int ensures Cautious(n + 1, ConfigureOut(r, k), i, a) { OutCalm(n, r, k, i, a); }
      UpdateCalm(n + 1, Cntl1, 0x08, 0, r => ConfigureOut(r, k), i, a);
      CautiousMore(n + 3, n + 10, p, i, a, i, a);
    } else if Contract(mv, ma) {
      forall fast: int ensures Cautious(n + 9, p.onGet(fast), i, a) {
        ProgramCalm(n, Budgets(fast != 0, mv, ma, usbType, th), k, i, a);
      }
    } else {
      ProgramCalm(n, Budgets(false, mv, ma, usbType, th), k, i, a);
      CautiousMore(n + 9, n + 10, p, i, a, i, a);
    }
  }

  lemma ThermalCalm(n: nat, th: Thermal, temp: Option<int>, mv: int, ma: int, usbType: int, k: int -> Prog,
        i: bool, a: bool)
    requires Calm(n, k, i, a)
    ensures Cautious(n + 12, ConfigureThermal(th, temp, mv, ma, usbType, k), i, a)
  {
    hide ConfigureLimits;
    var p := ConfigureThermal(th, temp, mv, ma, usbType, k);
    if temp.None? {
      LimitsCalm(n, th, mv, ma, usbType, k, i, a);
      CautiousMore(n + 10, n + 12, p, i, a, i, a);
    } else {
      forall now: int ensures Cautious(n + 11, p.onGet(now), i, a) {
        LimitsCalm(n, NextThermal(ThermalOf(now), temp.value), mv, ma, usbType, k, i, a);
      }
    }
  }

  lemma ForCalm(n: nat, mv: int, ma: int, usbType: int, k: int -> Prog, i: bool, a: bool)
    requires Calm(n, k, i, a)
    ensures Cautious(n + 18, ConfigureFor(mv, ma, usbType, k), i, a)
  {
    hide ConfigureThermal, GetTemp;
    OutCalm(n, usbType, k, i, a);
    CautiousMore(n + 1, n + 18, ConfigureOut(usbType, k), i, a, i, a);
    var p := ConfigureFor(mv, ma, usbType, k);
    if usbType >= 0 {
      forall th: int ensures Cautious(n + 17, p.onGet(th), i, a) {
        var f := (temp: Option<int>) => ConfigureThermal(ThermalOf(th), temp, mv, ma, usbType, k);
        forall temp: Option<int> ensures Cautious(n + 12, f(temp), i, a) {
          ThermalCalm(n, ThermalOf(th), temp, mv, ma, usbType, k, i, a);
        }
        TempCalm(n + 12, f, i, a);
        assert p.onGet(th) == GetTemp(f);
      }
    }
  }

  lemma ConfigureCalm(n: nat, k: int -> Prog, i: bool, a: bool)
    requires Calm(n, k, i, a)
    ensures Cautious(n + 26, ConfigureCharging(k), i, a)
  {
    hide ConfigureFor, GetUsbType;
    var p := ConfigureCharging(k).next;
    forall otg: int ensures Cautious(n + 24, p.onGet(otg), i, a) {
      if otg != 0 {
        OutCalm(n, EBUSY, k, i, a);
        CautiousMore(n + 1, n + 24, ConfigureOut(EBUSY, k), i, a, i, a);
      } else {
        var q := p.onGet(0);
        forall mv: int ensures Cautious(n + 23, q.onGet(mv), i, a) {
          var r := q.onGet(mv);
          forall ma: int ensures Cautious(n + 22, r.onGet(ma), i, a) {
            var f := (t: int) => ConfigureFor(mv, ma, t, k);
            forall t: int ensures Cautious(n + 18, f(t), i, a) { ForCalm(n, mv, ma, t, k, i, a); }
            UsbTypeCalm(n + 18, f, i, a);
            assert r.onGet(ma) == GetUsbType(f);
          }
        }
      }
    }
    assert Cautious(n + 25, p, i, a);
  }

  /** The routines. */

  lemma ReleaseCalm(n: nat, ret: int, i: bool, a: bool)
    requires n >= 1
    ensures Cautious(n, Unlock(Global, Done(ret)), i, a)
  {
  }

  lemma ConfigureReleaseCalm(i: bool, a: bool)
    ensures Cautious(27, ConfigureCharging(r => Unlock(Global, Done(r))), i, a)
  {
    var f := (r: int) => Unlock(Global, Done(r));
    forall r: int ensures Cautious(1, f(r), i, a) { ReleaseCalm(1, r, i, a); }
    ConfigureCalm(1, f, i, a);
  }

  lemma PdWhenCalm(online: int, i: bool, a: bool)
    ensures Cautious(28, PdWhen(online), i, a)
  {
    hide ConfigureCharging;
    ReleaseCalm(28, 0, i, a);
    ReleaseCalm(27, 0, i, a);
    if online > 0 {
      var p := PdWhen(online);
      forall d: int ensures Cautious(27, p.onGet(d), i || d == 0, a) {
        ReleaseCalm(27, 0, i || d == 0, a);
        ConfigureReleaseCalm(i || d == 0, a);
      }
    }
  }

  lemma SetPdCalm(mv: nat, ma: nat)
    ensures Cautious(92, SetPdContract(mv, ma), false, false)
  {
    hide PdOnline;
    var p := SetPdContract(mv, ma);
    if p.Lock? {
      PdOnlineCalm();
      ReleaseCalm(30, 0, false, false);
      var store := PdStore(mv, ma);
      assert Cautious(32, store, false, false);
      ReleaseCalm(32, EPROBE_DEFER, false, false);
      forall v: int ensures p.next.onSense(Some(v)) == store {}
      assert p.next.onSense(None) == Unlock(Global, Done(EPROBE_DEFER));
      assert Cautious(33, p.next, false, false);
      CautiousMore(34, 92, p, false, false, false, false);
    }
  }

  lemma PdOnlineCalm()
    ensures Cautious(30, PdOnline(), false, false)
  {
    hide GetOnline, PdWhen;
    var f := (online: int) => PdWhen(online);
    forall online: int ensures Cautious(28, f(online), false, false) { PdWhenCalm(online, false, false); }
    OnlineCalm(28, f, false, false);
  }

  lemma DirectOnCalm()
    ensures Cautious(13, DirectOn(), false, false)
  {
    hide UpdateBits, GetTemp;
    var f := (temp: Option<int>) => DirectWarm(temp);
    forall temp: Option<int> ensures Cautious(8, f(temp), false, false) { DirectWarmCalm(temp); }
    TempCalm(8, f, false, false);
  }

  lemma DirectWarmCalm(temp: Option<int>)
    ensures Cautious(8, DirectWarm(temp), false, false)
  {
    hide UpdateBits;
    forall r: int ensures Cautious(4, DirectOpened(r), false, false) {}
    UpdateCalm(4, Cntl1, 0x08, 0, r => DirectOpened(r), false, false);
    assert Cautious(7, DirectOpen(), false, false);
  }

  lemma DirectOffCalm()
    ensures Cautious(30, DirectOff(), false, false)
  {
    hide ConfigureCharging, GetOnline;
    ConfigureReleaseCalm(false, false);
    var f := (online: int) => DirectBack(online);
    forall online: int ensures Cautious(27, f(online), false, false) { ReleaseCalm(27, 0, false, false); }
    OnlineCalm(27, f, false, false);
  }

  lemma SetDirectCalm(active: bool)
    ensures Cautious(92, SetDirectCharge(active), false, false)
  {
    hide DirectOn, DirectOff;
    DirectOnCalm();
    DirectOffCalm();
    CautiousMore(13, 30, DirectOn(), false, false, false, false);
    ReleaseCalm(30, EPROBE_DEFER, false, false);
    var p := SetDirectCharge(active);
    var next := if active then DirectOn() else DirectOff();
    forall v: int ensures p.next.onSense(Some(v)) == next {}
    assert p.next.onSense(None) == Unlock(Global, Done(EPROBE_DEFER));
    assert Cautious(31, p.next, false, false);
    CautiousMore(32, 92, p, false, false, false, false);
  }

  // The way up: the two flags are read, and only then is there anything to write.
  lemma OtgOnCalm(otgMa: bv8)
    ensures Cautious(4, OtgOn(otgMa), false, false)
  {
    var p := OtgOn(otgMa);
    forall d: int ensures Cautious(3, p.onGet(d), d == 0, false) {
      ReleaseCalm(3, EBUSY, d == 0, false);
      if d == 0 {
        var q := p.onGet(0);
        assert q.Sense? && q.source == Status1;
        assert q.onSense(None) == Unlock(Global, Done(EIO));
        forall v: int ensures Cautious(2, q.onSense(Some(v)), true, v % 2 == 0) {
          OddIsOnline(v);
          assert q.onSense(Some(v)) == OtgOffline(if v % 2 == 1 then 1 else 0, otgMa);
        }
      }
    }
  }

  lemma OddIsOnline(v: int)
    ensures Bit(v, 1) <==> v % 2 == 1
  {
  }

  lemma TailCalm(ret: int)
    ensures Cautious(28, OtgOffTail(ret), false, false)
  {
    hide ConfigureCharging;
    forall r: int ensures Cautious(0, Done(r), false, false) {}
    ConfigureCalm(0, r => Done(r), false, false);
    var f := (online: int) => OtgOffCharge(online);
    forall online: int ensures Cautious(27, f(online), false, false) {}
    RawOnlineCalm(27, f, false, false);
    ReleaseCalm(28, ret, false, false);
  }

  lemma OtgOffCalm()
    ensures Cautious(37, OtgOff(), false, false)
  {
    hide MuicOff, OtgOffTail, UpdateBits;
    forall r: int ensures Cautious(34, OtgUnboosted(r), false, false) {
      ReleaseCalm(33, r, false, false);
      var f := (q: int) => Unlock(Chg, OtgOffTail(q));
      forall q: int ensures Cautious(29, f(q), false, false) { TailCalm(q); }
      PathOffCalm(29, f, false, false);
    }
    UpdateCalm(34, Cntl2, 0x0f, 0x05, r => OtgUnboosted(r), false, false);
  }

  lemma SetOtgCalm(active: bool, otgMa: bv8)
    ensures Cautious(92, SetOtg(active, otgMa), false, false)
  {
    hide OtgOn, OtgOff;
    OtgOnCalm(otgMa);
    OtgOffCalm();
    CautiousMore(4, 37, OtgOn(otgMa), false, false, false, false);
    ReleaseCalm(37, 0, false, false);
    ReleaseCalm(38, EPROBE_DEFER, false, false);
    var p, when := SetOtg(active, otgMa), OtgWhen(active, otgMa);
    forall otg: int ensures Cautious(37, when.onGet(otg), false, false) {}
    assert Cautious(38, when, false, false);
    forall v: int ensures p.next.onSense(Some(v)) == when {}
    assert p.next.onSense(None) == Unlock(Global, Done(EPROBE_DEFER));
    assert Cautious(39, p.next, false, false);
    CautiousMore(40, 92, p, false, false, false, false);
  }

  lemma FlagsCalm()
    ensures Cautious(92, IsOtgActive(), false, false) && Cautious(92, FastChargeEnabled(), false, false)
  {
    var p, q := IsOtgActive(), FastChargeEnabled();
    forall v: int ensures Cautious(4, p.next.onSense(Some(v)), false, false) {
      var g := p.next.onSense(Some(v));
      forall otg: int ensures Cautious(3, g.onGet(otg), false, false) {}
    }
    assert Cautious(5, p.next, false, false);
    CautiousMore(6, 92, p, false, false, false, false);
    forall v: int ensures Cautious(4, q.next.onSense(Some(v)), false, false) {
      var g := q.next.onSense(Some(v)).next;
      forall fast: int ensures Cautious(2, g.onGet(fast), false, false) {}
      assert Cautious(3, g, false, false);
    }
    assert Cautious(5, q.next, false, false);
    CautiousMore(6, 92, q, false, false, false, false);
  }

  lemma SwitchStoreCalm(enabled: bool)
    ensures Cautious(92, FastChargeStore(enabled), false, false)
  {
    hide ConfigureCharging;
    var k := (r: int) => Done(0);
    forall r: int ensures Cautious(0, k(r), false, false) {}
    ConfigureCalm(0, k, false, false);
    var p := FastChargeStore(enabled);
    forall fast: int ensures Cautious(27, p.onGet(fast), false, false) {
      var q := p.onGet(fast);
      if q.Set? { assert q.next == ConfigureCharging(k); }
    }
    CautiousMore(28, 92, p, false, false, false, false);
  }

  lemma PollOnlineCalm(online: int, i: bool, a: bool)
    ensures Cautious(4, PollOnline(online), i, a)
  {
    hide UpdateBits;
    var k := (r: int) => Done(0);
    forall r: int ensures Cautious(0, k(r), i, a) {}
    UpdateCalm(0, Cntl1, 0x08, 0, k, i, a);
    if online >= 0 {
      var p := PollOnline(online);
      forall last: int ensures Cautious(3, p.onGet(last), i, a) {
        var q := p.onGet(last);
        if q.Set? { assert q.next == Done(0) || q.next == UpdateBits(Cntl1, 0x08, 0, k); }
      }
    }
  }

  lemma ReopenCalm(online: int, i: bool, a: bool)
    ensures Cautious(35, PollReopen(online), i, a)
  {
    hide ConfigureCharging, GetStatus, PollOnline;
    PollOnlineCalm(online, i, a);
    CautiousMore(4, 34, PollOnline(online), i, a, i, a);
    CautiousMore(4, 8, PollOnline(online), i, a, i, a);
    var s := (st: int) => PollOnline(online);
    forall st: int ensures Cautious(4, s(st), i, a) {}
    StatusCalm(4, s, i, a);
    var f := (r: int) => PollReopened(r, online);
    forall r: int ensures Cautious(8, f(r), i, a) {
      if r == 0 { assert f(r) == GetStatus(s); }
    }
    ConfigureCalm(8, f, i, a);
  }

  lemma RecoverCalm(status: int, online: int, i: bool, a: bool)
    ensures Cautious(37, PollRecover(status, online), i, a)
  {
    hide PollReopen, PollOnline;
    forall j: bool ensures Cautious(35, PollReopen(online), j, a) && Cautious(4, PollOnline(online), j, a) {
      ReopenCalm(online, j, a);
      PollOnlineCalm(online, j, a);
    }
    CautiousMore(4, 37, PollOnline(online), i, a, i, a);
    var p := PollRecover(status, online);
    if online > 0 && status == NOT_CHARGING {
      forall d: int ensures Cautious(36, p.onGet(d), i || d == 0, a) {
        var j := i || d == 0;
        CautiousMore(4, 36, PollOnline(online), j, a, j, a);
        CautiousMore(4, 35, PollOnline(online), j, a, j, a);
        if d == 0 {
          var q := p.onGet(0);
          forall th: int ensures Cautious(35, q.onGet(th), j, a) {}
        }
      }
    }
  }

  lemma ChangedCalm(before: int, status: int, online: int, i: bool, a: bool)
    ensures Cautious(68, PollChanged(before, status, online), i, a)
  {
    hide PollRecover, ConfigureCharging, GetStatus;
    var s := (st: int) => PollRecover(st, online);
    forall st: int ensures Cautious(37, s(st), i, a) { RecoverCalm(st, online, i, a); }
    StatusCalm(37, s, i, a);
    var f := (r: int) => PollRestatus(online);
    forall r: int ensures Cautious(41, f(r), i, a) { assert f(r) == GetStatus(s); }
    ConfigureCalm(41, f, i, a);
    RecoverCalm(status, online, i, a);
    CautiousMore(37, 67, PollRecover(status, online), i, a, i, a);
    var p := PollChanged(before, status, online);
    forall th: int ensures Cautious(67, p.onGet(th), i, a) {
      assert p.onGet(th) == PollRecover(status, online) || p.onGet(th) == ConfigureCharging(f);
    }
  }

  lemma PollTempCalm(before: int, temp: Option<int>, status: int, online: int, i: bool, a: bool)
    ensures Cautious(70, PollTemp(before, temp, status, online), i, a)
  {
    hide PollChanged;
    ChangedCalm(before, status, online, i, a);
    var p := PollTemp(before, temp, status, online);
    if temp.None? {
      CautiousMore(68, 70, p, i, a, i, a);
    } else {
      forall th: int ensures Cautious(69, p.onGet(th), i, a) {}
    }
  }

  lemma PollThermalCalm(status: int, online: int, i: bool, a: bool)
    ensures Cautious(76, PollThermal(status, online), i, a)
  {
    hide PollTemp, PollRecover, GetTemp;
    RecoverCalm(status, online, i, a);
    CautiousMore(37, 75, PollRecover(status, online), i, a, i, a);
    var p := PollThermal(status, online);
    forall before: int ensures Cautious(75, p.onGet(before), i, a) {
      var f := (temp: Option<int>) => PollTemp(before, temp, status, online);
      forall temp: Option<int> ensures Cautious(70, f(temp), i, a) { PollTempCalm(before, temp, status, online, i, a); }
      TempCalm(70, f, i, a);
      assert p.onGet(before) == PollRecover(status, online) || p.onGet(before) == GetTemp(f);
    }
  }

  lemma PollCountedCalm(status: int, online: int, i: bool, a: bool)
    ensures Cautious(82, PollCounted(status, online), i, a)
  {
    hide PollThermal, GetCapacity;
    PollThermalCalm(status, online, i, a);
    CautiousMore(76, 80, PollThermal(status, online), i, a, i, a);
    var f := (c: int) => PollThermal(status, online);
    forall c: int ensures Cautious(76, f(c), i, a) {}
    CapacityCalm(76, f, i, a);
    var p := PollCounted(status, online);
    forall n: int ensures Cautious(81, p.onGet(n), i, a) {
      var q := p.onGet(n);
      assert q.next == PollThermal(status, online) || q.next == GetCapacity(f);
    }
  }

  lemma PollCalm()
    ensures Cautious(92, PollWork(), false, false)
  {
    hide PollCounted, GetUsbType, GetOnline, GetStatus;
    var f := (status: int) => PollStatused(status);
    forall status: int ensures Cautious(88, f(status), false, false) {
      var g := (online: int) => PollTyped(status, online);
      forall online: int ensures Cautious(86, g(online), false, false) {
        var h := (t: int) => PollCounted(status, online);
        forall t: int ensures Cautious(82, h(t), false, false) { PollCountedCalm(status, online, false, false); }
        UsbTypeCalm(82, h, false, false);
        assert g(online) == GetUsbType(h);
      }
      OnlineCalm(86, g, false, false);
      assert f(status) == GetOnline(g);
    }
    StatusCalm(88, f, false, false);
  }

  lemma PropertyCalm(which: nat)
    ensures Cautious(92, ReadProperty(which), false, false)
  {
    hide GetUsbType, GetOnline, GetStatus, GetTemp, GetCapacity;
    var p := ReadProperty(which);
    var k := (v: int) => Done(v);
    var o := (v: Option<int>) => Done(if v.None? then EIO else v.value);
    forall v: int ensures Cautious(0, k(v), false, false) {}
    forall v: Option<int> ensures Cautious(0, o(v), false, false) {}
    StatusCalm(0, k, false, false);
    CapacityCalm(0, k, false, false);
    TempCalm(0, o, false, false);
    OnlineCalm(0, k, false, false);
    UsbTypeCalm(0, k, false, false);
    var n := if which == 2 then 5 else if which == 3 then 2 else 4;
    assert Cautious(n, p, false, false);
    CautiousMore(n, 92, p, false, false, false, false);
  }

  lemma BodyCalm(r: Routine)
    ensures Cautious(92, Body(r), false, false)
  {
    hide Cautious;
    match r
    case RSetPdContract(mv, ma) => SetPdCalm(mv, ma);
    case RSetDirectCharge(active) => SetDirectCalm(active);
    case RSetOtg(on, otgMa) => SetOtgCalm(on, otgMa);
    case RIsOtgActive => FlagsCalm();
    case RFastChargeEnabled => FlagsCalm();
    case RFastChargeStore(enabled) => SwitchStoreCalm(enabled);
    case RPollWork => PollCalm();
    case RReadProperty(which) => PropertyCalm(which);
  }

  /** Over every run. */

  // Since event i, thread t has read direct_charging as 0.
  ghost predicate SawIdle(states: seq<State>, events: seq<Event>, i: nat, j: nat, t: nat)
    requires |states| == |events| + 1 && j <= |events|
  {
    exists k :: i < k < j && ReadsIdle(states[k], events[k], t)
  }

  ghost predicate ReadsIdle(s: State, e: Event, t: nat) {
    && e.Act? && e.tid == t && t in s.threads && s.threads[t].prog.Get? && s.threads[t].prog.field == DirectCharging
    && s.shared.directCharging == 0
  }

  // Since event i, thread t has read STATUS1 with no source on VBUS.
  ghost predicate SawAbsent(states: seq<State>, events: seq<Event>, i: nat, j: nat, t: nat)
    requires |states| == |events| + 1 && j <= |events|
  {
    exists k :: i < k < j && ReadsAbsent(states[k], events[k], t)
  }

  ghost predicate ReadsAbsent(s: State, e: Event, t: nat) {
    && e.Act? && e.tid == t && t in s.threads && s.threads[t].prog.Sense? && s.threads[t].prog.source == Status1
    && e.choice.ok && e.choice.value % 2 == 0
  }

  // One access of a cautious thread.
  lemma CautiousAct(n: nat, th: Thread, sh: Shared, c: Choice, i: bool, a: bool)
    requires Cautious(n, th.prog, i, a) && !th.prog.Done? && !(i && a)
    requires th.prog.Sense? ==> Plausible(th.prog.source, c.value)
    ensures n > 0 && (!sh.Boosting() ==> !ThreadStep(th, sh, c).1.Boosting())
    ensures
      var i' := i || (th.prog.Get? && th.prog.field == DirectCharging && sh.directCharging == 0);
      var a' := a || (th.prog.Sense? && th.prog.source == Status1 && c.ok && c.value % 2 == 0);
      Cautious(n - 1, ThreadStep(th, sh, c).0.prog, i', a')
  {
    assert CautiousStep(n, th.prog, i, a);
    match th.prog
    case Get(fd, k) =>
      assert Cautious(n - 1, k(sh.FieldVal(fd)), i || (fd == DirectCharging && sh.FieldVal(fd) == 0), a);
    case Write(r, v, f) => if !sh.Boosting() { OnlyCntl2(sh, r, v); }
    case Set(fd, v, _) => NotByField(sh, fd, v);
    case Sense(s, f) =>
      if c.ok {
        assert Cautious(n - 1, f(Some(c.value)), i, a || (s == Status1 && c.value % 2 == 0));
      }
    case Read(r, f) => if c.ok { assert Cautious(n - 1, f(Some(sh.RegVal(r))), i, a); }
    case _ =>
  }

  lemma OnlyCntl2(sh: Shared, r: Reg, v: bv8)
    requires !sh.Boosting() && !(r == Cntl2 && v & 0x0f == 0x07)
    ensures !sh.WithReg(r, v).Boosting()
  {
  }

  lemma NotByField(sh: Shared, fd: Field, v: int)
    ensures sh.WithField(fd, v).Boosting() == sh.Boosting()
  {
  }

  // Thread t in the call begun at i: what it may still do fits what it has seen.
  ghost predicate CallCautious(states: seq<State>, events: seq<Event>, i: nat, j: nat, t: nat)
    requires |states| == |events| + 1 && j <= |events|
  {
    && t in states[j].threads
    && exists n: nat ::
         Cautious(n, states[j].threads[t].prog, SawIdle(states, events, i, j, t), SawAbsent(states, events, i, j, t))
  }

  lemma SawLater(states: seq<State>, events: seq<Event>, i: nat, j: nat, t: nat)
    requires |states| == |events| + 1 && i < j < |events|
    ensures SawIdle(states, events, i, j + 1, t)
       <==> SawIdle(states, events, i, j, t) || ReadsIdle(states[j], events[j], t)
    ensures SawAbsent(states, events, i, j + 1, t)
       <==> SawAbsent(states, events, i, j, t) || ReadsAbsent(states[j], events[j], t)
  {
  }

  lemma {:induction false} EveryCallCautious(states: seq<State>, events: seq<Event>, i: nat, j: nat, t: nat)
    requires Run(states, events) && InCall(events, i, j, t)
    ensures CallCautious(states, events, i, j, t)
    decreases j
  {
    hide Cautious, Run, SawIdle, SawAbsent;
    RunShape(states, events, j - 1);
    if j == i + 1 {
      CautiousAtBegin(states, events, i, t);
    } else {
      EveryCallCautious(states, events, i, j - 1, t);
      CallStep(states, events, i, j - 1, t);
    }
  }

  lemma RunShape(states: seq<State>, events: seq<Event>, j: int)
    requires Run(states, events)
    ensures |states| == |events| + 1
    ensures 0 <= j < |events| ==> Step(states[j], events[j], states[j + 1], DRIVER)
  {
  }

  lemma CautiousAtBegin(states: seq<State>, events: seq<Event>, i: nat, t: nat)
    requires |states| == |events| + 1 && i < |events| && events[i].Begin? && events[i].tid == t
    requires Step(states[i], events[i], states[i + 1], DRIVER)
    ensures CallCautious(states, events, i, i + 1, t)
  {
    hide Cautious;
    var r: Routine :| events[i].routine == Body(r);
    BodyCalm(r);
    assert states[i + 1].threads[t].prog == Body(r);
    assert !SawIdle(states, events, i, i + 1, t) && !SawAbsent(states, events, i, i + 1, t);
    assert Cautious(92, states[i + 1].threads[t].prog, SawIdle(states, events, i, i + 1, t),
                    SawAbsent(states, events, i, i + 1, t));
  }

  lemma CallStep(states: seq<State>, events: seq<Event>, i: nat, j: nat, t: nat)
    requires |states| == |events| + 1 && i < j < |events| && Step(states[j], events[j], states[j + 1], DRIVER)
    requires CallCautious(states, events, i, j, t) && !(events[j].Begin? && events[j].tid == t)
    ensures CallCautious(states, events, i, j + 1, t)
  {
    hide SawIdle, SawAbsent, Cautious;
    SawLater(states, events, i, j, t);
    var idle, absent := SawIdle(states, events, i, j, t), SawAbsent(states, events, i, j, t);
    var idle', absent' := SawIdle(states, events, i, j + 1, t), SawAbsent(states, events, i, j + 1, t);
    var n: nat :| Cautious(n, states[j].threads[t].prog, idle, absent);
    var th := states[j].threads[t];
    if events[j].Act? && events[j].tid == t {
      if idle && absent {
        BothSeen(n, states[j + 1].threads[t].prog);
      } else {
        CautiousAct(n, th, states[j].shared, events[j].choice, idle, absent);
        assert Cautious(n - 1, states[j + 1].threads[t].prog, idle', absent');
      }
    } else {
      assert states[j + 1].threads[t] == th;
      assert Cautious(n, states[j + 1].threads[t].prog, idle', absent');
    }
  }

  lemma BothSeen(n: nat, p: Prog)
    ensures Cautious(n, p, true, true)
  {
  }

  // Every thread is in the call of its last Begin.
  lemma {:induction false} CallOf(states: seq<State>, events: seq<Event>, j: nat, t: nat) returns (i: nat)
    requires Run(states, events) && j <= |events| && t in states[j].threads
    ensures InCall(events, i, j, t)
    decreases j
  {
    hide Run;
    i := 0;
    RunShape(states, events, j - 1);
    if j == 0 {
      StartsEmpty(states, events);
    } else if events[j - 1].Begin? && events[j - 1].tid == t {
      i := j - 1;
    } else {
      i := CallOf(states, events, j - 1, t);
    }
  }

  lemma StartsEmpty(states: seq<State>, events: seq<Event>)
    requires Run(states, events)
    ensures states[0].threads == map[]
  {
  }

  // In every run, with any transfer failing: the step that takes the boost from off to on
  // is a write of a call that, since it began, has read direct_charging as 0 and STATUS1
  // with no source on VBUS.
  lemma BoostStartsCautiously(states: seq<State>, events: seq<Event>, j: nat) returns (i: nat, t: nat)
    requires Run(states, events) && j < |events|
    requires !states[j].shared.Boosting() && states[j + 1].shared.Boosting()
    ensures events[j].Act? && events[j].tid == t && InCall(events, i, j, t)
    ensures SawIdle(states, events, i, j, t) && SawAbsent(states, events, i, j, t)
  {
    hide Run, SawIdle, SawAbsent, Cautious;
    RunShape(states, events, j);
    assert events[j].Act?;
    t := events[j].tid;
    i := CallOf(states, events, j, t);
    EveryCallCautious(states, events, i, j, t);
    var idle, absent := SawIdle(states, events, i, j, t), SawAbsent(states, events, i, j, t);
    var n: nat :| Cautious(n, states[j].threads[t].prog, idle, absent);
    if !(idle && absent) {
      CautiousAct(n, states[j].threads[t], states[j].shared, events[j].choice, idle, absent);
    }
  }
}
