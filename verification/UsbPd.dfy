/**
 * The USB-PD driver's record and its callbacks, each tied to the port model.
 */
module UsbPd {
  import opened Wrappers
  import opened CcHold

  datatype Incoming = Incoming(sop: nat, count: nat, kind: nat, attach: Option<nat>, holdOk: bool)

  // The events one interrupt amounts to.
  function Handled(readOk: bool, message: Option<Incoming>, attach: bool, detach: bool): seq<Event> {
    if !readOk then []
    else if message == None then [Interrupt(attach, detach)]
    else
      var m := message.value;
      [Message(m.sop, m.count, m.kind, m.attach, m.holdOk), Interrupt(attach, detach)]
  }

  lemma HandledRuns(p: Port, readOk: bool, message: Option<Incoming>, attach: bool, detach: bool)
    ensures Run(p, Handled(readOk, message, attach, detach)) ==
            if !readOk then p
            else if message == None then Attach(p, attach, detach)
            else
              var m := message.value;
              Attach(Receive(p, m.sop, m.count, m.kind, m.attach, m.holdOk), attach, detach)
  {
    hide Receive;
    var events := Handled(readOk, message, attach, detach);
    if |events| == 2 {
      assert events[..1][..0] == [] && Run(p, events[..1]) == After(p, events[0]);
    } else if |events| == 1 {
      assert events[..0] == [];
    }
  }

  class UsbPdDriver {
    var srcToSnk: bool
    var snkToSrc: bool
    var frozen: bool
    var irqSaw: bool
    var watchSaw: bool
    var rp: nat
    var mode1: nat
    var hold: nat
    var mode3: nat
    var swapped: bool

    function State(): Port
      reads this
    {
      Port(srcToSnk, snkToSrc, frozen, irqSaw, watchSaw, rp, mode1, hold, mode3, swapped)
    }

    // The driver as probed over the chip's registers; irqSaw takes the retained attachment.
    constructor (attached: bool, rp0: nat, cntl1: nat, cntl3: nat)
      ensures State() == Port(false, false, false, attached, false, rp0, cntl1, 0, cntl3, false)
      ensures Owned(State())
    {
      srcToSnk, snkToSrc, frozen, irqSaw, watchSaw := false, false, false, attached, false;
      rp, mode1, hold, mode3, swapped := rp0, cntl1, 0, cntl3, false;
    }

    method SetCcHold(value: nat, ok: bool)
      modifies this`hold
      ensures State() == WithHold(old(State()), value, ok)
    {
      if ok { hold := value; }
    }

    method WriteMode3(value: nat, ok: bool)
      modifies this`hold, this`mode3
      ensures State() == WithMode3(old(State()), value, ok)
    {
      if ok { hold, mode3 := 0, value; }
    }

    method ToggleRole(io: CcIo)
      modifies this`swapped
      ensures State() == Toggled(old(State()), io)
    {
      if io.roleOk && io.firstOk { swapped := !swapped; }
    }

    method ForceCc(value: nat, advertised: nat, mode: nat, io: CcIo)
      modifies this`rp, this`mode1, this`hold, this`mode3
      ensures State() == if io.firstOk
                         then WithMode3(old(State()).(mode1 := value, rp := advertised), mode, io.secondOk)
                         else old(State())
    {
      if io.firstOk {
        mode1, rp := value, advertised;
        WriteMode3(mode, io.secondOk);
      }
    }

    method ApplyCc(cc: Cc, io: CcIo)
      modifies this
      ensures State() == SetCc(old(State()), cc, io)
    {
      match cc
      case Open =>
        srcToSnk, snkToSrc := false, false;
        SetCcHold(0, io.holdOk);
        WriteMode3(0x88, io.firstOk);
      case Rd =>
        if io.attach == None || io.attach == Some(SOURCE) { return; }
        if srcToSnk {
          SetCcHold(1, io.holdOk);
          if io.holdOk { ToggleRole(io); }
        } else {
          ForceCc(0x45, 0, 0x82, io);
        }
      case Rp =>
        if io.attach == None { return; }
        if io.attach == Some(SINK) {
          if io.firstOk { rp := io.otgRp % 4; }
        } else if snkToSrc {
          ToggleRole(io);
        } else {
          ForceCc(0x49, io.otgRp % 4, 0x81, io);
        }
      case Other =>
    }

    method StartDrpToggling(t: PortType, cc: Cc, io: CcIo)
      modifies this
      ensures State() == StartToggling(old(State()), t, cc, io)
    {
      hide SetCc;
      match t
      case SrcOnly => ApplyCc(cc, io);
      case SnkOnly => ApplyCc(Rd, io);
      case Dual =>
        srcToSnk, snkToSrc := false, false;
        SetCcHold(0, io.holdOk);
        ForceCc(0x40, 0, 0x80, io);
    }

    // The whole callback with nothing in between; ok is its result.
    method SetVbus(on: bool, holdOk: bool, otgOk: bool) returns (ok: bool)
      modifies this
      ensures State() == After(old(State()), CallVbus(on, holdOk, otgOk))
      ensures ok <==> otgOk && (on || !old(srcToSnk) || holdOk)
    {
      frozen := false;
      if !on && srcToSnk {
        SetCcHold(2, holdOk);
        if !holdOk { return false; }
      }
      if on && otgOk { snkToSrc := false; }
      return otgOk;
    }

    method ReceiveMessage(sop: nat, count: nat, kind: nat, attach: Option<nat>, holdOk: bool)
      modifies this
      ensures State() == Receive(old(State()), sop, count, kind, attach, holdOk)
    {
      if sop != 0 || count != 0 { return; }
      if kind == PR_SWAP {
        if attach == Some(SINK) {
          srcToSnk := true;
        } else if attach == Some(SOURCE) {
          snkToSrc := true;
        }
      }
      if kind == PS_RDY && srcToSnk {
        SetCcHold(0, holdOk);
        if holdOk { srcToSnk := false; }
      }
    }

    // The interrupt handler: the message first, under the lock, then what the attach
    // bits say; nothing without the interrupt registers.
    method HandleInterrupt(readOk: bool, message: Option<Incoming>, attach: bool, detach: bool) returns (handled: bool)
      modifies this
      ensures handled == readOk
      ensures State() == Run(old(State()), Handled(readOk, message, attach, detach))
    {
      HandledRuns(State(), readOk, message, attach, detach);
      if !readOk { return false; }
      if message.Some? {
        var m := message.value;
        ReceiveMessage(m.sop, m.count, m.kind, m.attach, m.holdOk);
      }
      if attach { irqSaw := true; }
      if detach { irqSaw := false; }
      return true;
    }

    method WatchPort(attach: Option<nat>) returns (resync: bool)
      modifies this`watchSaw
      ensures (State(), resync) == Watch(old(State()), attach)
    {
      if attach == None { return false; }
      var attached := attach.value != 0;
      resync := attached && !irqSaw && !watchSaw;
      watchSaw := attached;
    }
  }
}
