/**
 * The CC hold of the USB-PD driver: the latch that freezes the detected CC state
 * while a Source-to-Sink power role swap is under way.
 */
module CcHold {
  import opened Wrappers

  /** State: the swap flags, the attach bookkeeping and the CC registers. */

  // frozen: a set_vbus(off) call that has read the swap flag and is about to
  // take the lock. Registers are kept by field: hold is bits 5:4 of CC_CNTL3, rp
  // bits 5:4 of CC_CNTL1, swapped bit 0 of CC_CNTL7, mode1 and mode3 the rest.
  datatype Port = Port(
    srcToSnk: bool, snkToSrc: bool, frozen: bool,
    irqSaw: bool, watchSaw: bool,
    rp: nat, mode1: nat, hold: nat, mode3: nat, swapped: bool)

  function WithHold(p: Port, hold: nat, ok: bool): Port {
    if ok then p.(hold := hold) else p
  }

  // A whole-register write of CC_CNTL3; every value the driver writes has no hold.
  function WithMode3(p: Port, val: nat, ok: bool): Port {
    if ok then p.(mode3 := val, hold := 0) else p
  }

  /** Callbacks. Every transfer may fail; a failed write leaves the register alone. */

  datatype Cc = Open | Rd | Rp | Other

  datatype PortType = SrcOnly | SnkOnly | Dual

  // attach: bits 2:0 of CC_STATUS, None for a failed read.
  datatype CcIo = CcIo(attach: Option<nat>, otgRp: nat, roleOk: bool, holdOk: bool, firstOk: bool, secondOk: bool)

  const SOURCE := 1
  const SINK := 2

  // The in-place role swap: toggle bit 0 of CC_CNTL7.
  function Toggled(p: Port, io: CcIo): Port {
    if io.roleOk && io.firstOk then p.(swapped := !p.swapped) else p
  }

  function SetCc(p: Port, cc: Cc, io: CcIo): (q: Port)
    ensures q.frozen == p.frozen && q.irqSaw == p.irqSaw && q.watchSaw == p.watchSaw
  {
    match cc
    case Open =>
      WithMode3(WithHold(p.(srcToSnk := false, snkToSrc := false), 0, io.holdOk), 0x88, io.firstOk)
    case Rd =>
      if io.attach == None || io.attach == Some(SOURCE) then p
      else if p.srcToSnk then
        if io.holdOk then Toggled(p.(hold := 1), io) else p
      else if io.firstOk then WithMode3(p.(mode1 := 0x45, rp := 0), 0x82, io.secondOk)
      else p
    case Rp =>
      if io.attach == None then p
      else if io.attach == Some(SINK) then
        if io.firstOk then p.(rp := io.otgRp % 4) else p
      else if p.snkToSrc then Toggled(p, io)
      else if io.firstOk then WithMode3(p.(mode1 := 0x49, rp := io.otgRp % 4), 0x81, io.secondOk)
      else p
    case Other => p
  }

  function StartToggling(p: Port, t: PortType, cc: Cc, io: CcIo): (q: Port)
    ensures q.frozen == p.frozen && q.irqSaw == p.irqSaw && q.watchSaw == p.watchSaw
  {
    match t
    case SrcOnly => SetCc(p, cc, io)
    case SnkOnly => SetCc(p, Rd, io)
    case Dual =>
      var q := WithHold(p.(srcToSnk := false, snkToSrc := false), 0, io.holdOk);
      if io.firstOk then WithMode3(q.(mode1 := 0x40, rp := 0), 0x80, io.secondOk) else q
  }

  // set_vbus tests the flag before it takes the lock: two steps.
  function VbusTest(p: Port, on: bool): Port { p.(frozen := !on && p.srcToSnk) }

  function VbusFreeze(p: Port, ok: bool): Port {
    WithHold(p.(frozen := false), 2, p.frozen && ok)
  }

  // After the boost is on, the inverse swap is over.
  function VbusDone(p: Port, on: bool, otgOk: bool): Port {
    if on && otgOk then p.(snkToSrc := false) else p
  }

  const PR_SWAP := 10
  const PS_RDY := 6

  // A received message: sop 0 is SOP; count data objects; type from the header.
  function Receive(p: Port, sop: nat, count: nat, kind: nat, attach: Option<nat>, holdOk: bool): (q: Port)
    ensures q.frozen == p.frozen && q.irqSaw == p.irqSaw && q.watchSaw == p.watchSaw
  {
    if sop != 0 || count != 0 then p
    else
      var q :=
        if kind != PR_SWAP || attach == None then p
        else if attach == Some(SINK) then p.(srcToSnk := true)
        else if attach == Some(SOURCE) then p.(snkToSrc := true)
        else p;
      if kind == PS_RDY && q.srcToSnk && holdOk then WithHold(q, 0, true).(srcToSnk := false) else q
  }

  function Attach(p: Port, attach: bool, detach: bool): Port {
    p.(irqSaw := if detach then false else if attach then true else p.irqSaw)
  }

  // The attach watchdog; the flag says it resynchronises TCPM.
  function Watch(p: Port, attach: Option<nat>): (r: (Port, bool)) {
    if attach == None then (p, false)
    else
      var attached := attach.value != 0;
      (p.(watchSaw := attached), attached && !p.irqSaw && !p.watchSaw)
  }

  /** Runs. */

  datatype Event =
    | CallSetCc(cc: Cc, io: CcIo)
    | CallToggling(t: PortType, cc: Cc, io: CcIo)
    | CallVbus(on: bool, holdOk: bool, otgOk: bool)
    | StepVbusTest(on: bool)
    | StepVbusFreeze(holdOk: bool)
    | StepVbusDone(on: bool, otgOk: bool)
    | Message(sop: nat, count: nat, kind: nat, status: Option<nat>, holdOk: bool)
    | Interrupt(attach: bool, detach: bool)
    | WatchTick(status: Option<nat>)

  function After(p: Port, e: Event): Port {
    match e
    case CallSetCc(cc, io) => SetCc(p, cc, io)
    case CallToggling(t, cc, io) => StartToggling(p, t, cc, io)
    case CallVbus(on, holdOk, otgOk) =>
      var q := VbusFreeze(VbusTest(p, on), holdOk);
      if !on && p.srcToSnk && !holdOk then q else VbusDone(q, on, otgOk)
    case StepVbusTest(on) => VbusTest(p, on)
    case StepVbusFreeze(holdOk) => VbusFreeze(p, holdOk)
    case StepVbusDone(on, otgOk) => VbusDone(p, on, otgOk)
    case Message(sop, count, kind, status, holdOk) => Receive(p, sop, count, kind, status, holdOk)
    case Interrupt(attach, detach) => Attach(p, attach, detach)
    case WatchTick(status) => Watch(p, status).0
  }

  function Run(p: Port, events: seq<Event>): Port {
    if events == [] then p else After(Run(p, events[..|events| - 1]), events[|events| - 1])
  }

  // A hold always belongs to a pending Source-to-Sink swap.
  predicate Owned(p: Port) { p.hold != 0 ==> p.srcToSnk }

  predicate LostOpen(cc: Cc, io: CcIo) { cc == Open && !io.holdOk && !io.firstOk }

  predicate LostToggling(t: PortType, cc: Cc, io: CcIo) {
    || (t == SrcOnly && LostOpen(cc, io))
    || (t == Dual && !io.holdOk && !(io.firstOk && io.secondOk))
  }

  // An event that drops the flag and releases the hold with lost writes only.
  predicate LostRelease(e: Event) {
    || (e.CallSetCc? && LostOpen(e.cc, e.io))
    || (e.CallToggling? && LostToggling(e.t, e.cc, e.io))
  }

  // A freeze that was decided before the flag was dropped.
  predicate StaleFreeze(p: Port, e: Event) {
    e.StepVbusFreeze? && e.holdOk && p.frozen && !p.srcToSnk
  }

  lemma SetCcOwnership(p: Port, cc: Cc, io: CcIo)
    requires Owned(p)
    ensures Owned(SetCc(p, cc, io)) <==> !(LostOpen(cc, io) && p.hold != 0)
  {
  }

  lemma TogglingOwnership(p: Port, t: PortType, cc: Cc, io: CcIo)
    requires Owned(p)
    ensures Owned(StartToggling(p, t, cc, io)) <==> !(LostToggling(t, cc, io) && p.hold != 0)
  {
    hide SetCc, LostOpen;
    SetCcOwnership(p, cc, io);
    SetCcOwnership(p, Rd, io);
    OnlyOpenIsLost(io);
  }

  lemma OnlyOpenIsLost(io: CcIo)
    ensures !LostOpen(Rd, io)
  {
  }

  // Exactly which events orphan a hold, whatever fails.
  lemma OwnershipLost(p: Port, e: Event)
    requires Owned(p)
    ensures Owned(After(p, e)) <==> !(LostRelease(e) && p.hold != 0) && !StaleFreeze(p, e)
  {
    hide SetCc, StartToggling, LostOpen, LostToggling;
    if e.CallSetCc? {
      SetCcOwnership(p, e.cc, e.io);
    } else if e.CallToggling? {
      TogglingOwnership(p, e.t, e.cc, e.io);
    }
  }

  predicate Steady(p: Port, events: seq<Event>) {
    forall i :: 0 <= i < |events| ==> !LostRelease(events[i]) && !StaleFreeze(Run(p, events[..i]), events[i])
  }

  lemma {:induction false} RunOwned(p: Port, events: seq<Event>)
    requires Owned(p) && Steady(p, events)
    ensures Owned(Run(p, events))
  {
    hide After, LostRelease, StaleFreeze, Owned;
    if events != [] {
      var last := |events| - 1;
      assert forall i :: 0 <= i < last ==> events[..last][..i] == events[..i];
      RunOwned(p, events[..last]);
      OwnershipLost(Run(p, events[..last]), events[last]);
    }
  }

  // Callbacks one at a time and no lost write: the run is steady.
  predicate Atomic(e: Event) {
    !LostRelease(e) && !e.StepVbusTest? && !e.StepVbusFreeze? && !e.StepVbusDone?
  }

  lemma {:induction false} AtomicIsSteady(p: Port, events: seq<Event>)
    requires !p.frozen && forall i :: 0 <= i < |events| ==> Atomic(events[i])
    ensures Steady(p, events) && !Run(p, events).frozen
  {
    if events != [] {
      var last := |events| - 1;
      assert forall i :: 0 <= i < last ==> events[..last][..i] == events[..i];
      AtomicIsSteady(p, events[..last]);
      NotFrozen(Run(p, events[..last]), events[last]);
    }
  }

  lemma NotFrozen(p: Port, e: Event)
    requires !p.frozen && Atomic(e)
    ensures !After(p, e).frozen
  {
    hide SetCc, StartToggling, Receive, LostRelease;
  }

  // The three ways a swap ends, with their own writes going through.
  predicate Releases(e: Event) {
    || (e.CallSetCc? && e.cc == Open && (e.io.holdOk || e.io.firstOk))
    || (e.CallToggling? && e.t == Dual && (e.io.holdOk || (e.io.firstOk && e.io.secondOk)))
    || (e.Message? && e.sop == 0 && e.count == 0 && e.kind == PS_RDY && e.holdOk)
  }

  // After any steady run, interleaved set_vbus steps included, PS_RDY on SOP, CC open
  // and DRP toggling leave no hold and no pending swap.
  lemma SwapEndsReleased(p: Port, events: seq<Event>, e: Event)
    requires Owned(p) && Steady(p, events) && Releases(e)
    ensures var q := After(Run(p, events), e); q.hold == 0 && !q.srcToSnk
  {
    hide Run;
    RunOwned(p, events);
    ReleaseReleases(Run(p, events), e);
  }

  lemma ReleaseReleases(p: Port, e: Event)
    requires Owned(p) && Releases(e)
    ensures After(p, e).hold == 0 && !After(p, e).srcToSnk
  {
  }

  // The race: PS_RDY handled between the test of the flag and the freeze leaves
  // the CC state frozen with no swap pending, and later PS_RDYs do not release it.
  lemma FreezeAfterReadyIsOrphaned(p: Port, later: seq<Event>)
    requires Owned(p) && !p.srcToSnk
    requires forall i :: 0 <= i < |later| ==> later[i].Message? && later[i].kind == PS_RDY
    ensures
      var race := [Message(0, 0, PR_SWAP, Some(2), true), StepVbusTest(false),
                   Message(0, 0, PS_RDY, None, true), StepVbusFreeze(true)];
      var q := Run(Run(p, race), later);
      q.hold == 2 && !q.srcToSnk
  {
    var a := Message(0, 0, PR_SWAP, Some(2), true);
    var b := StepVbusTest(false);
    var c := Message(0, 0, PS_RDY, None, true);
    var d := StepVbusFreeze(true);
    var race := [a, b, c, d];
    assert [a][..0] == [] && [a, b][..1] == [a] && [a, b, c][..2] == [a, b] && race[..3] == [a, b, c];
    var p2 := Run(p, [a, b]);
    assert p2 == After(Run(p, [a]), b) && p2.frozen && p2.srcToSnk;
    var p3 := Run(p, [a, b, c]);
    assert p3 == After(p2, c) && p3.frozen && !p3.srcToSnk;
    assert Run(p, race) == After(p3, d);
    ReadyKeepsOrphan(Run(p, race), later);
  }

  lemma {:induction false} ReadyKeepsOrphan(p: Port, later: seq<Event>)
    requires p.hold == 2 && !p.srcToSnk
    requires forall i :: 0 <= i < |later| ==> later[i].Message? && later[i].kind == PS_RDY
    ensures Run(p, later) == p
  {
    if later != [] {
      ReadyKeepsOrphan(p, later[..|later| - 1]);
    }
  }

  /** The watchdog. */

  predicate NoneFrom(events: seq<Event>, k: nat, off: Event -> bool) {
    forall j :: k <= j < |events| ==> !off(events[j])
  }

  // Some event of the run says on and no later one says off; before any, start.
  predicate LastSays(start: bool, events: seq<Event>, on: Event -> bool, off: Event -> bool) {
    || (start && NoneFrom(events, 0, off))
    || (exists i :: 0 <= i < |events| && on(events[i]) && NoneFrom(events, i + 1, off))
  }

  predicate SaysAttach(e: Event) { e.Interrupt? && e.attach && !e.detach }
  predicate SaysDetach(e: Event) { e.Interrupt? && e.detach }
  predicate ReadsAttached(e: Event) { e.WatchTick? && e.status.Some? && e.status.value != 0 }
  predicate ReadsEmpty(e: Event) { e.WatchTick? && e.status == Some(0) }

  // The interrupt path reported the attachment and no detachment since.
  predicate Announced(p: Port, events: seq<Event>) { LastSays(p.irqSaw, events, SaysAttach, SaysDetach) }

  // The last reading that went through found something attached.
  predicate Watched(p: Port, events: seq<Event>) { LastSays(p.watchSaw, events, ReadsAttached, ReadsEmpty) }

  lemma NoneFromStep(events: seq<Event>, k: nat, e: Event, off: Event -> bool)
    requires k <= |events|
    ensures NoneFrom(events + [e], k, off) <==> NoneFrom(events, k, off) && !off(e)
  {
    var all := events + [e];
    assert all[|events|] == e && forall j :: 0 <= j < |events| ==> all[j] == events[j];
  }

  lemma LastSaysStep(start: bool, events: seq<Event>, e: Event, on: Event -> bool, off: Event -> bool)
    requires on(e) ==> !off(e)
    ensures LastSays(start, events + [e], on, off) <==> on(e) || (LastSays(start, events, on, off) && !off(e))
  {
    var all := events + [e];
    assert all[|events|] == e;
    forall k | 0 <= k <= |events| ensures NoneFrom(all, k, off) <==> NoneFrom(events, k, off) && !off(e) {
      NoneFromStep(events, k, e, off);
    }
    assert NoneFrom(all, |all|, off);
    if i :| 0 <= i < |events| && on(events[i]) && NoneFrom(events, i + 1, off) {
      assert all[i] == events[i];
    }
  }

  lemma FlagsStep(p: Port, e: Event)
    ensures After(p, e).irqSaw <==> SaysAttach(e) || (p.irqSaw && !SaysDetach(e))
    ensures After(p, e).watchSaw <==> ReadsAttached(e) || (p.watchSaw && !ReadsEmpty(e))
  {
    hide SetCc, StartToggling, Receive;
    OnlyThePortTasks(p, e);
  }

  lemma OnlyThePortTasks(p: Port, e: Event)
    ensures !e.Interrupt? ==> After(p, e).irqSaw == p.irqSaw
    ensures !e.WatchTick? ==> After(p, e).watchSaw == p.watchSaw
  {
    hide SetCc, StartToggling, Receive;
  }

  // The two flags mean what their names say, over every run.
  lemma {:induction false} FlagsTell(p: Port, events: seq<Event>)
    ensures Run(p, events).irqSaw <==> Announced(p, events)
    ensures Run(p, events).watchSaw <==> Watched(p, events)
  {
    hide After, LastSays;
    if events == [] {
      NothingSaid(p);
    } else {
      var front, e := events[..|events| - 1], events[|events| - 1];
      assert events == front + [e];
      FlagsTell(p, front);
      FlagsStep(Run(p, front), e);
      LastSaysStep(p.irqSaw, front, e, SaysAttach, SaysDetach);
      LastSaysStep(p.watchSaw, front, e, ReadsAttached, ReadsEmpty);
    }
  }

  lemma NothingSaid(p: Port)
    ensures Announced(p, []) == p.irqSaw && Watched(p, []) == p.watchSaw
  {
  }

  // The watchdog resynchronises exactly when it reads an attachment that the
  // interrupt path has not reported and its own last reading did not show.
  lemma ResyncsExactly(p: Port, events: seq<Event>, status: Option<nat>)
    ensures Watch(Run(p, events), status).1
       <==> status.Some? && status.value != 0 && !Announced(p, events) && !Watched(p, events)
  {
    FlagsTell(p, events);
  }

  // No tick of the run resynchronises.
  predicate Silent(p: Port, events: seq<Event>) {
    forall i :: 0 <= i < |events| && events[i].WatchTick? ==> !Watch(Run(p, events[..i]), events[i].status).1
  }

  // Every attachment the watchdog newly reads was announced before the reading.
  predicate AllAnnounced(p: Port, events: seq<Event>) {
    forall i :: 0 <= i < |events| && ReadsAttached(events[i]) && !Watched(p, events[..i]) ==> Announced(p, events[..i])
  }

  // A run whose attachments are all announced in time never resynchronises, and no
  // other run keeps silent.
  lemma SilentExactly(p: Port, events: seq<Event>)
    ensures Silent(p, events) <==> AllAnnounced(p, events)
  {
    hide Announced, Watched, Watch, Run;
    forall i | 0 <= i < |events| && events[i].WatchTick?
      ensures Watch(Run(p, events[..i]), events[i].status).1
         <==> ReadsAttached(events[i]) && !Watched(p, events[..i]) && !Announced(p, events[..i])
    {
      ResyncsExactly(p, events[..i], events[i].status);
    }
  }

  // An attachment that is announced, but after a tick has read it, is resynchronised
  // all the same.
  lemma TickBeforeInterruptSpeaks(p: Port, status: nat)
    requires !p.irqSaw && !p.watchSaw && status != 0
    ensures var events := [WatchTick(Some(status)), Interrupt(true, false)];
      Announced(p, events) && !Silent(p, events)
  {
    var events := [WatchTick(Some(status)), Interrupt(true, false)];
    assert SaysAttach(events[1]) && NoneFrom(events, 2, SaysDetach);
    assert events[..0] == [] && Watch(Run(p, events[..0]), events[0].status).1;
  }

  // Between two resynchronisations the watchdog has seen the port empty.
  lemma OneResyncPerAttachment(p: Port, first: Option<nat>, between: seq<Event>, second: Option<nat>)
    requires Watch(p, first).1
    requires Watch(Run(After(p, WatchTick(first)), between), second).1
    ensures exists i :: 0 <= i < |between| && ReadsEmpty(between[i])
  {
    ResyncsExactly(After(p, WatchTick(first)), between, second);
  }
}
