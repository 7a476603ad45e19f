/**
 * What the CC registers say: the role the last call forced, the swap flags and
 * the in-place role swap, over every run of the port's events.
 */
module CcRoles {
  import opened Wrappers
  import opened CcHold

  /** The decoded role. */

  datatype Role = Sink | Source | Drp | Opened | Mixed

  // CC_CNTL3 0x88 disables both comparators whatever CC_CNTL1 says.
  function RoleOf(p: Port): Role {
    if p.mode3 == 0x88 then Opened
    else if p.mode1 == 0x45 && p.mode3 == 0x82 then Sink
    else if p.mode1 == 0x49 && p.mode3 == 0x81 then Source
    else if p.mode1 == 0x40 && p.mode3 == 0x80 then Drp
    else Mixed
  }

  // The role a set_cc asks for.
  function Asked(cc: Cc): Option<Role> {
    match cc
    case Open => Some(Opened)
    case Rd => Some(Sink)
    case Rp => Some(Source)
    case Other => None
  }

  // Nothing owns the connection: CC_STATUS was read, shows no natural attachment of
  // the other kind, and no swap towards the asked role is pending.
  predicate Free(p: Port, cc: Cc, attach: Option<nat>) {
    match cc
    case Open => true
    case Rd => attach.Some? && attach.value != 1 && !p.srcToSnk
    case Rp => attach.Some? && attach.value != 2 && !p.snkToSrc
    case Other => false
  }

  datatype Force = Force(role: Role, firstOk: bool, secondOk: bool)

  // What a set_cc forces, if it gets to its writes; Open has one write only.
  function ForcedBy(p: Port, cc: Cc, io: CcIo): Option<Force> {
    if !Free(p, cc, io.attach) then None
    else Some(Force(Asked(cc).value, io.firstOk, if cc == Open then io.firstOk else io.secondOk))
  }

  function Forced(p: Port, e: Event): Option<Force> {
    match e
    case CallSetCc(cc, io) => ForcedBy(p, cc, io)
    case CallToggling(SrcOnly, cc, io) => ForcedBy(p, cc, io)
    case CallToggling(SnkOnly, _, io) => ForcedBy(p, Rd, io)
    case CallToggling(Dual, _, io) => Some(Force(Drp, io.firstOk, io.secondOk))
    case _ => None
  }

  // The event changes a mode byte.
  predicate Touches(p: Port, e: Event) { Forced(p, e).Some? && Forced(p, e).value.firstOk }

  lemma SetCcRole(p: Port, cc: Cc, io: CcIo)
    ensures var f, q := ForcedBy(p, cc, io), SetCc(p, cc, io);
      && (f.Some? && f.value.firstOk && f.value.secondOk ==> RoleOf(q) == f.value.role && q.hold == 0)
      && (f.Some? && f.value.firstOk && f.value.secondOk && cc != Open ==> q.rp == if cc == Rp then io.otgRp % 4 else 0)
      && (f.None? || !f.value.firstOk ==> q.mode1 == p.mode1 && q.mode3 == p.mode3)
  {
  }

  lemma TogglingRole(p: Port, cc: Cc, io: CcIo)
    ensures var q := StartToggling(p, Dual, cc, io);
      && (io.firstOk && io.secondOk ==> RoleOf(q) == Drp && q.hold == 0 && q.rp == 0)
      && (!io.firstOk ==> q.mode1 == p.mode1 && q.mode3 == p.mode3)
  {
  }

  // Both writes through: the decoded role is the one asked for. No write through, a
  // natural attachment, a pending swap or any other event: the mode bytes stay.
  lemma RoleStep(p: Port, e: Event)
    ensures Forced(p, e).Some? && Forced(p, e).value.firstOk && Forced(p, e).value.secondOk ==>
              RoleOf(After(p, e)) == Forced(p, e).value.role
    ensures !Touches(p, e) ==> After(p, e).mode1 == p.mode1 && After(p, e).mode3 == p.mode3
  {
    hide SetCc, StartToggling, Receive, RoleOf, ForcedBy;
    match e
    case CallSetCc(cc, io) => SetCcRole(p, cc, io);
    case CallToggling(t, cc, io) => TogglingStep(p, t, cc, io);
    case Message(sop, count, kind, status, holdOk) => MessageModes(p, sop, count, kind, status, holdOk);
    case _ =>
  }

  lemma TogglingStep(p: Port, t: PortType, cc: Cc, io: CcIo)
    ensures var f, q := Forced(p, CallToggling(t, cc, io)), StartToggling(p, t, cc, io);
      && (f.Some? && f.value.firstOk && f.value.secondOk ==> RoleOf(q) == f.value.role)
      && (f.None? || !f.value.firstOk ==> q.mode1 == p.mode1 && q.mode3 == p.mode3)
  {
    hide SetCc, RoleOf, ForcedBy;
    match t
    case SrcOnly => SetCcRole(p, cc, io);
    case SnkOnly => SetCcRole(p, Rd, io);
    case Dual => TogglingRole(p, cc, io);
  }

  lemma MessageModes(p: Port, sop: nat, count: nat, kind: nat, status: Option<nat>, holdOk: bool)
    ensures var q := Receive(p, sop, count, kind, status, holdOk); q.mode1 == p.mode1 && q.mode3 == p.mode3
  {
  }

  // No event from k on changes a mode byte.
  predicate Untouched(p: Port, events: seq<Event>, k: nat) {
    forall j :: k <= j < |events| ==> !Touches(Run(p, events[..j]), events[j])
  }

  lemma {:induction false} ModesStay(p: Port, events: seq<Event>, k: nat)
    requires k <= |events| && Untouched(p, events, k)
    ensures var a, b := Run(p, events[..k]), Run(p, events); a.mode1 == b.mode1 && a.mode3 == b.mode3
    decreases |events|
  {
    hide After, Touches;
    if k == |events| {
      assert events[..k] == events;
    } else {
      var last := |events| - 1;
      var front := events[..last];
      assert forall j :: 0 <= j <= last ==> front[..j] == events[..j];
      ModesStay(p, front, k);
      RoleStep(Run(p, front), events[last]);
    }
  }

  // Over every run: the port plays the role the last call that changed it asked for, if
  // that call's writes went through; before any, its role is what it was.
  lemma RoleIsLastForced(p: Port, events: seq<Event>, i: nat)
    requires i < |events| && Untouched(p, events, i + 1)
    requires Touches(Run(p, events[..i]), events[i])
    ensures var f := Forced(Run(p, events[..i]), events[i]).value;
      f.secondOk ==> RoleOf(Run(p, events)) == f.role
  {
    hide After, Forced, RoleOf;
    ModesStay(p, events, i + 1);
    assert events[..i + 1][..i] == events[..i];
    RoleStep(Run(p, events[..i]), events[i]);
    SameModesSameRole(Run(p, events[..i + 1]), Run(p, events));
  }

  lemma SameModesSameRole(a: Port, b: Port)
    requires a.mode1 == b.mode1 && a.mode3 == b.mode3
    ensures RoleOf(a) == RoleOf(b)
  {
  }

  // A natural attachment keeps its role: Rd on a source leaves the port alone, Rp on a
  // sink changes at most the advertised current.
  lemma NaturalAttachmentStays(p: Port, io: CcIo)
    ensures io.attach == Some(1) ==> SetCc(p, Rd, io) == p
    ensures io.attach == Some(2) ==> SetCc(p, Rp, io) == if io.firstOk then p.(rp := io.otgRp % 4) else p
    ensures io.attach == None ==> SetCc(p, Rd, io) == SetCc(p, Rp, io) == p
  {
  }

  /** The swap flags. */

  // PR_SWAP is control message 10, PS_RDY control message 6, on SOP without data.
  predicate AsksSwap(e: Event, side: nat) {
    e.Message? && e.sop == 0 && e.count == 0 && e.kind == 10 && e.status == Some(side)
  }

  predicate DropsBoth(e: Event) {
    (e.CallSetCc? && e.cc == Open) || (e.CallToggling? && (e.t == Dual || (e.t == SrcOnly && e.cc == Open)))
  }

  predicate StartsToSink(e: Event) { AsksSwap(e, 2) }
  predicate StartsToSource(e: Event) { AsksSwap(e, 1) }

  predicate EndsToSink(e: Event) {
    DropsBoth(e) || (e.Message? && e.sop == 0 && e.count == 0 && e.kind == 6 && e.holdOk)
  }

  // A successful set_vbus(on).
  predicate EndsToSource(e: Event) {
    DropsBoth(e) || (e.CallVbus? && e.on && e.otgOk) || (e.StepVbusDone? && e.on && e.otgOk)
  }

  lemma SwapFlagsStep(p: Port, e: Event)
    ensures After(p, e).srcToSnk <==> StartsToSink(e) || (p.srcToSnk && !EndsToSink(e))
    ensures After(p, e).snkToSrc <==> StartsToSource(e) || (p.snkToSrc && !EndsToSource(e))
  {
    hide SetCc, StartToggling, Receive, VbusFreeze;
    match e
    case CallSetCc(cc, io) => SetCcFlags(p, cc, io);
    case CallToggling(t, cc, io) => TogglingFlags(p, t, cc, io);
    case CallVbus(on, holdOk, otgOk) => FreezeFlags(VbusTest(p, on), holdOk);
    case StepVbusFreeze(holdOk) => FreezeFlags(p, holdOk);
    case Message(sop, count, kind, status, holdOk) => MessageFlags(p, sop, count, kind, status, holdOk);
    case _ =>
  }

  lemma FreezeFlags(p: Port, ok: bool)
    ensures var q := VbusFreeze(p, ok); q.srcToSnk == p.srcToSnk && q.snkToSrc == p.snkToSrc
  {
  }

  lemma MessageFlags(p: Port, sop: nat, count: nat, kind: nat, status: Option<nat>, holdOk: bool)
    ensures var q, swap := Receive(p, sop, count, kind, status, holdOk), sop == 0 && count == 0 && kind == 10;
      && (q.srcToSnk <==>
            (swap && status == Some(2)) || (p.srcToSnk && !(sop == 0 && count == 0 && kind == 6 && holdOk)))
      && (q.snkToSrc <==> (swap && status == Some(1)) || p.snkToSrc)
  {
  }

  lemma SetCcFlags(p: Port, cc: Cc, io: CcIo)
    ensures var q := SetCc(p, cc, io);
      q.srcToSnk == (p.srcToSnk && cc != Open) && q.snkToSrc == (p.snkToSrc && cc != Open)
  {
  }

  lemma TogglingFlags(p: Port, t: PortType, cc: Cc, io: CcIo)
    ensures var q, drops := StartToggling(p, t, cc, io), t == Dual || (t == SrcOnly && cc == Open);
      q.srcToSnk == (p.srcToSnk && !drops) && q.snkToSrc == (p.snkToSrc && !drops)
  {
    hide SetCc;
    SetCcFlags(p, cc, io);
    SetCcFlags(p, Rd, io);
  }

  // Over every run each flag says that its swap was asked for by the partner, while
  // attached on that side, and that nothing has ended it since.
  lemma {:induction false} SwapFlagsTell(p: Port, events: seq<Event>)
    ensures Run(p, events).srcToSnk <==> LastSays(p.srcToSnk, events, StartsToSink, EndsToSink)
    ensures Run(p, events).snkToSrc <==> LastSays(p.snkToSrc, events, StartsToSource, EndsToSource)
  {
    hide After, LastSays;
    if events == [] {
      NothingStarted(p);
    } else {
      var front, e := events[..|events| - 1], events[|events| - 1];
      assert events == front + [e];
      SwapFlagsTell(p, front);
      SwapFlagsStep(Run(p, front), e);
      LastSaysStep(p.srcToSnk, front, e, StartsToSink, EndsToSink);
      LastSaysStep(p.snkToSrc, front, e, StartsToSource, EndsToSource);
    }
  }

  lemma NothingStarted(p: Port)
    ensures LastSays(p.srcToSnk, [], StartsToSink, EndsToSink) == p.srcToSnk
    ensures LastSays(p.snkToSrc, [], StartsToSource, EndsToSource) == p.snkToSrc
  {
  }

  /** The swap itself. */

  // Source to Sink, every transfer going through: frozen while VBUS goes off, held while
  // the pull changes in place, released by PS_RDY. Only bit 0 of CC_CNTL7 has changed.
  lemma SourceToSinkSwap(p: Port, io: CcIo)
    requires p.hold == 0 && !p.srcToSnk && !p.frozen
    requires io.attach.Some? && io.attach.value != 1 && io.roleOk && io.holdOk && io.firstOk
    ensures
      var asked := After(p, Message(0, 0, 10, Some(2), true));
      var frozen := After(asked, CallVbus(false, true, true));
      var held := After(frozen, CallSetCc(Rd, io));
      var done := After(held, Message(0, 0, 6, None, true));
      && asked == p.(srcToSnk := true)
      && frozen == asked.(hold := 2)
      && held == asked.(hold := 1, swapped := !p.swapped)
      && done == p.(swapped := !p.swapped)
  {
  }

  // Sink to Source: the pull changes in place and the swap is over once VBUS is on.
  lemma SinkToSourceSwap(p: Port, io: CcIo)
    requires !p.snkToSrc && !p.frozen
    requires io.attach.Some? && io.attach.value != 2 && io.roleOk && io.firstOk
    ensures
      var asked := After(p, Message(0, 0, 10, Some(1), true));
      var held := After(asked, CallSetCc(Rp, io));
      var done := After(held, CallVbus(true, true, true));
      && asked == p.(snkToSrc := true)
      && held == asked.(swapped := !p.swapped)
      && done == p.(swapped := !p.swapped)
  {
  }
}
