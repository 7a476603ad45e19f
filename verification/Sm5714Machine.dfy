/**
 * A fine-grained machine for the SM5714 battery driver: any number of threads,
 * one register transfer, field access or lock operation per step, and every
 * I2C transfer free to fail.
 *
 * A driver routine is a `Prog`: the first thing it does and, for each outcome,
 * what it does next.  Sm5714Battery.dfy writes the routines in this form.
 */
module Sm5714Machine {
  import opened Wrappers
  import opened Sm5714Codes

  datatype Mutex = Global | Chg | Sram

  // Registers the driver writes.
  datatype Reg = Cntl1 | Cntl2 | VbusCntl | ChgCntl2 | ChgCntl4 | BstCntl1 | MuicCntl | MuicSw

  // Readings the hardware chooses.
  datatype Sensor = Status1 | Status2 | MuicType | Thermistor | FgSelect | FgData | Primary

  // Fields of struct sm5714_battery.
  datatype Field =
    | OtgActive | DirectCharging | TypecMv | TypecMa | ThermalState
    | FastCharge | FloatUv | LastOnline | PollCount

  datatype Prog =
    | Done(ret: int)
    | Lock(m: Mutex, next: Prog)
    | Unlock(m: Mutex, next: Prog)
    | Read(reg: Reg, onRead: Option<bv8> -> Prog)
    | Write(reg: Reg, val: bv8, onWrite: bool -> Prog)
    | Sense(source: Sensor, onSense: Option<int> -> Prog)
    | Get(field: Field, onGet: int -> Prog)
    | Set(field: Field, newVal: int, next: Prog)

  datatype Shared = Shared(
    cntl1: bv8, cntl2: bv8, vbusCntl: bv8, chgCntl2: bv8, chgCntl4: bv8, bstCntl1: bv8,
    muicCntl: bv8, muicSw: bv8,
    otgActive: int, directCharging: int, typecMv: int, typecMa: int, thermalState: int,
    fastCharge: int, floatUv: int, lastOnline: int, pollCount: int)
  {
    function RegVal(r: Reg): bv8 {
      match r
      case Cntl1 => cntl1
      case Cntl2 => cntl2
      case VbusCntl => vbusCntl
      case ChgCntl2 => chgCntl2
      case ChgCntl4 => chgCntl4
      case BstCntl1 => bstCntl1
      case MuicCntl => muicCntl
      case MuicSw => muicSw
    }

    function WithReg(r: Reg, v: bv8): Shared {
      match r
      case Cntl1 => this.(cntl1 := v)
      case Cntl2 => this.(cntl2 := v)
      case VbusCntl => this.(vbusCntl := v)
      case ChgCntl2 => this.(chgCntl2 := v)
      case ChgCntl4 => this.(chgCntl4 := v)
      case BstCntl1 => this.(bstCntl1 := v)
      case MuicCntl => this.(muicCntl := v)
      case MuicSw => this.(muicSw := v)
    }

    function FieldVal(f: Field): int {
      match f
      case OtgActive => otgActive
      case DirectCharging => directCharging
      case TypecMv => typecMv
      case TypecMa => typecMa
      case ThermalState => thermalState
      case FastCharge => fastCharge
      case FloatUv => floatUv
      case LastOnline => lastOnline
      case PollCount => pollCount
    }

    function WithField(f: Field, v: int): Shared {
      match f
      case OtgActive => this.(otgActive := v)
      case DirectCharging => this.(directCharging := v)
      case TypecMv => this.(typecMv := v)
      case TypecMa => this.(typecMa := v)
      case ThermalState => this.(thermalState := v)
      case FastCharge => this.(fastCharge := v)
      case FloatUv => this.(floatUv := v)
      case LastOnline => this.(lastOnline := v)
      case PollCount => this.(pollCount := v)
    }

    // Q4 connects the switching charger to the battery.
    predicate Q4Closed() { cntl1 & 0x08 != 0 }
    // The charger drives VBUS from its OTG boost.
    predicate Boosting() { cntl2 & 0x0f == 0x07 }
    // D-/D+ are on the manual USB path and BC1.2 detection is off.
    predicate OtgPath() { muicCntl & 0x02 != 0 && muicSw & 0xbf == 0x89 }
  }

  // What each sensor can return.
  predicate Plausible(source: Sensor, v: int) {
    match source
    case Status1 => 0 <= v < 0x100
    case Status2 => 0 <= v < 0x100
    case MuicType => 0 <= v < 0x100
    case FgData => 0 <= v < 0x1_0000
    case _ => true
  }

  datatype Held = Held(global: bool, chg: bool, sram: bool) {
    predicate Has(m: Mutex) {
      match m case Global => global case Chg => chg case Sram => sram
    }
    function With(m: Mutex, b: bool): Held {
      match m
      case Global => this.(global := b)
      case Chg => this.(chg := b)
      case Sram => this.(sram := b)
    }
    // Every held lock comes before m in the order global_lock, chg_lock, sram_lock.
    predicate Before(m: Mutex) {
      match m
      case Global => !global && !chg && !sram
      case Chg => !chg && !sram
      case Sram => !sram
    }
  }

  const NO_LOCK := Held(false, false, false)

  /** Threads and steps. */
  datatype Thread = Thread(prog: Prog, held: Held)
  datatype State = State(shared: Shared, threads: map<nat, Thread>)

  // The outcome the hardware picks for one step.
  datatype Choice = Choice(ok: bool, value: int)

  predicate Free(s: State, m: Mutex) {
    forall t :: t in s.threads ==> !s.threads[t].held.Has(m)
  }

  predicate Enabled(s: State, t: nat, c: Choice)
    requires t in s.threads
  {
    match s.threads[t].prog
    case Done(_) => false
    case Lock(m, _) => Free(s, m)
    case Sense(source, _) => Plausible(source, c.value)
    case _ => true
  }

  // One step of a thread that runs `th` against the shared state.
  function ThreadStep(th: Thread, sh: Shared, c: Choice): (Thread, Shared) {
    match th.prog
    case Done(_) => (th, sh)
    case Lock(m, next) => (Thread(next, th.held.With(m, true)), sh)
    case Unlock(m, next) => (Thread(next, th.held.With(m, false)), sh)
    case Read(r, f) => (th.(prog := f(if c.ok then Some(sh.RegVal(r)) else None)), sh)
    case Write(r, v, f) => (th.(prog := f(c.ok)), if c.ok then sh.WithReg(r, v) else sh)
    case Sense(_, f) => (th.(prog := f(if c.ok then Some(c.value) else None)), sh)
    case Get(f, k) => (th.(prog := k(sh.FieldVal(f))), sh)
    case Set(f, v, next) => (th.(prog := next), sh.WithField(f, v))
  }

  datatype Event =
    | Begin(tid: nat, routine: Prog)   // an idle thread enters a driver routine
    | Act(tid: nat, choice: Choice)    // a thread performs its next access

  ghost predicate Step(s: State, e: Event, s': State, routines: iset<Prog>) {
    match e
    case Begin(t, p) =>
      && p in routines
      && (t in s.threads ==> s.threads[t].prog.Done?)
      && s' == s.(threads := s.threads[t := Thread(p, NO_LOCK)])
    case Act(t, c) =>
      && t in s.threads && Enabled(s, t, c)
      && var (th, sh) := ThreadStep(s.threads[t], s.shared, c);
      s' == State(sh, s.threads[t := th])
  }

  /** Rely and guarantee. */

  // Holds in every state: the boost never drives the battery or an open data path.
  predicate Inv(sh: Shared) {
    sh.Boosting() ==> !sh.Q4Closed() && sh.OtgPath()
  }

  // Holds whenever chg_lock is free: the flag tells the truth about the boost.
  predicate LockInv(sh: Shared) {
    (sh.otgActive != 0) == sh.Boosting()
  }

  // What a thread holding `h` can count on while the others run.
  predicate Rely(h: Held, a: Shared, b: Shared) {
    && Inv(b)
    && (h.chg ==>
          && b.cntl2 == a.cntl2 && b.vbusCntl == a.vbusCntl && b.muicCntl == a.muicCntl && b.muicSw == a.muicSw
          && (!a.Q4Closed() ==> !b.Q4Closed()))
    && (h.chg || h.global ==> b.otgActive == a.otgActive)
  }

  // What a thread holding `h` owes the others in one step.
  predicate Guarantee(h: Held, a: Shared, b: Shared) {
    && Inv(b)
    && (!a.Q4Closed() && b.Q4Closed() ==> a.vbusCntl == InputCurrentReg(500) as bv8)
    && (!h.chg ==>
          && b.cntl2 == a.cntl2 && b.vbusCntl == a.vbusCntl && b.muicCntl == a.muicCntl && b.muicSw == a.muicSw
          && (!a.Q4Closed() ==> !b.Q4Closed()))
    && (!(h.chg && h.global) ==> b.otgActive == a.otgActive)
  }

  /**
   * From `sh`, holding `h`, the routine ends within `n` of its own steps with
   * every lock released; on the way it takes locks in order only, gives
   * chg_lock back with LockInv true, and meets its guarantee at every write,
   * whatever the other threads do and whichever transfers fail.
   */
  ghost predicate Safe(n: nat, p: Prog, h: Held, sh: Shared)
    decreases n
  {
    if p.Done? then h == NO_LOCK
    else n > 0 && forall sh' :: Rely(h, sh, sh') ==> SafeStep(n, p, h, sh')
  }

  ghost predicate SafeStep(n: nat, p: Prog, h: Held, sh: Shared)
    requires n > 0 && !p.Done?
    decreases n, 0
  {
    match p
    case Lock(m, next) =>
      h.Before(m) && ((m == Chg ==> LockInv(sh)) ==> Safe(n - 1, next, h.With(m, true), sh))
    case Unlock(m, next) =>
      h.Has(m) && (m == Chg ==> LockInv(sh)) && Safe(n - 1, next, h.With(m, false), sh)
    case Read(r, f) =>
      Safe(n - 1, f(None), h, sh) && Safe(n - 1, f(Some(sh.RegVal(r))), h, sh)
    case Write(r, v, f) =>
      && Safe(n - 1, f(false), h, sh)
      && Guarantee(h, sh, sh.WithReg(r, v))
      && Safe(n - 1, f(true), h, sh.WithReg(r, v))
    case Sense(source, f) =>
      && Safe(n - 1, f(None), h, sh)
      && forall v :: Plausible(source, v) ==> Safe(n - 1, f(Some(v)), h, sh)
    case Get(fd, k) =>
      Safe(n - 1, k(sh.FieldVal(fd)), h, sh)
    case Set(fd, v, next) =>
      Guarantee(h, sh, sh.WithField(fd, v)) && Safe(n - 1, next, h, sh.WithField(fd, v))
  }

  lemma SameReg(sh: Shared, reg: Reg)
    ensures sh.WithReg(reg, sh.RegVal(reg)) == sh
  {
  }

  // Safe survives whatever the other threads may do.
  lemma SafeUnderRely(n: nat, p: Prog, h: Held, a: Shared, b: Shared)
    requires Safe(n, p, h, a) && Rely(h, a, b)
    ensures Safe(n, p, h, b)
  {
    forall c | Rely(h, b, c) ensures Rely(h, a, c) {}
  }

  /** Soundness: threads that are Safe one by one are safe together. */

  ghost predicate ThreadSafe(th: Thread, sh: Shared) {
    exists n: nat :: Safe(n, th.prog, th.held, sh)
  }

  ghost predicate Coherent(s: State) {
    && Inv(s.shared)
    && (Free(s, Chg) ==> LockInv(s.shared))
    && (forall t :: t in s.threads ==> ThreadSafe(s.threads[t], s.shared))
    && (forall t, u, m: Mutex ::
          t in s.threads && u in s.threads && s.threads[t].held.Has(m) && s.threads[u].held.Has(m) ==> t == u)
  }

  lemma RelyFromGuarantee(h: Held, g: Held, a: Shared, b: Shared)
    requires Guarantee(g, a, b)
    requires forall m: Mutex :: !(h.Has(m) && g.Has(m))
    ensures Rely(h, a, b)
  {
    assert !(h.Has(Chg) && g.Has(Chg)) && !(h.Has(Global) && g.Has(Global));
  }

  // One step of one safe thread meets the guarantee and leaves the thread safe.
  lemma OneStep(th: Thread, sh: Shared, c: Choice, n: nat)
    requires Inv(sh) && !th.prog.Done? && Safe(n, th.prog, th.held, sh)
    requires th.prog.Sense? ==> Plausible(th.prog.source, c.value)
    requires th.prog.Lock? && th.prog.m == Chg ==> LockInv(sh)
    ensures n > 0
    ensures var (th', sh') := ThreadStep(th, sh, c);
            Safe(n - 1, th'.prog, th'.held, sh') && Guarantee(th.held, sh, sh')
    ensures th.prog.Unlock? && th.prog.m == Chg ==> LockInv(sh)
  {
    assert Rely(th.held, sh, sh);
    assert SafeStep(n, th.prog, th.held, sh);
  }

  lemma ActKeepsCoherent(s: State, t: nat, c: Choice)
    requires Coherent(s) && t in s.threads && Enabled(s, t, c)
    ensures var (th, sh) := ThreadStep(s.threads[t], s.shared, c);
            && Guarantee(s.threads[t].held, s.shared, sh)
            && Coherent(State(sh, s.threads[t := th]))
  {
    var th := s.threads[t];
    var n: nat :| Safe(n, th.prog, th.held, s.shared);
    OneStep(th, s.shared, c, n);
    var (th', sh') := ThreadStep(th, s.shared, c);
    var s' := State(sh', s.threads[t := th']);
    forall u | u in s'.threads ensures ThreadSafe(s'.threads[u], sh') {
      if u == t {
        assert Safe(n - 1, th'.prog, th'.held, sh');
      } else {
        OthersStaySafe(s, t, u, sh');
      }
    }
    HeldStaysExclusive(s, t, c);
    assert Free(s', Chg) ==> LockInv(sh') by {
      if Free(s', Chg) {
        ChgFreeAfter(s, t, c);
      }
    }
  }

  lemma OthersStaySafe(s: State, t: nat, u: nat, sh': Shared)
    requires Coherent(s) && t in s.threads && u in s.threads && t != u
    requires Guarantee(s.threads[t].held, s.shared, sh')
    ensures ThreadSafe(s.threads[u], sh')
  {
    var th := s.threads[u];
    var n: nat :| Safe(n, th.prog, th.held, s.shared);
    RelyFromGuarantee(th.held, s.threads[t].held, s.shared, sh');
    SafeUnderRely(n, th.prog, th.held, s.shared, sh');
  }

  lemma HeldStaysExclusive(s: State, t: nat, c: Choice)
    requires Coherent(s) && t in s.threads && Enabled(s, t, c)
    ensures var threads := s.threads[t := ThreadStep(s.threads[t], s.shared, c).0];
            forall a, b, m: Mutex ::
              a in threads && b in threads && threads[a].held.Has(m) && threads[b].held.Has(m) ==> a == b
  {
    var th := s.threads[t];
    var th' := ThreadStep(th, s.shared, c).0;
    forall m: Mutex | th'.held.Has(m) && !th.held.Has(m) ensures Free(s, m) {
      assert th.prog.Lock? && th.prog.m == m;
    }
  }

  lemma ChgFreeAfter(s: State, t: nat, c: Choice)
    requires Coherent(s) && t in s.threads && Enabled(s, t, c)
    requires var (th, sh) := ThreadStep(s.threads[t], s.shared, c);
             Free(State(sh, s.threads[t := th]), Chg) && Guarantee(s.threads[t].held, s.shared, sh)
    requires s.threads[t].prog.Unlock? && s.threads[t].prog.m == Chg ==> LockInv(s.shared)
    ensures LockInv(ThreadStep(s.threads[t], s.shared, c).1)
  {
    var th := s.threads[t];
    var (th', sh') := ThreadStep(th, s.shared, c);
    var s' := State(sh', s.threads[t := th']);
    assert !s'.threads[t].held.Has(Chg);
    if th.held.chg {
      assert th.prog.Unlock? && th.prog.m == Chg;
    } else {
      forall u | u in s.threads ensures !s.threads[u].held.Has(Chg) {
        if u != t { assert s'.threads[u] == s.threads[u]; }
      }
    }
  }
}
